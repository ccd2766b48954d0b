/** For which configurations the requests of a call are bounded at all, given a solver. */
module ClientBounds {
  import opened Common
  import opened ClientModel
  import opened ClientCounts
  import opened ClientExtremes
  import S = ClientSafety

  /** The breaker is the configured one, and every solved challenge to come is retried within its cooldown. */
  ghost predicate Governed(cfg: Config, st: State) {
    && st.breaker.threshold == cfg.FreshBreaker().threshold
    && st.breaker.cooldown == cfg.FreshBreaker().cooldown
    && st.breaker.consecutive >= 0
    && Prompt(st.script, cfg.FreshBreaker().cooldown)
  }

  lemma {:induction false} LogBreaker(cfg: Config, log: seq<Event>)
    ensures var b := S.BreakerAfter(cfg, log);
      && b.threshold == cfg.FreshBreaker().threshold && b.cooldown == cfg.FreshBreaker().cooldown && b.consecutive >= 0
  {
    if log != [] {
      LogBreaker(cfg, log[..|log| - 1]);
    }
  }

  /** Every state a client can be in is governed once the script to come is prompt. */
  lemma RunsAreGoverned(cfg: Config, now: int, ua: string, script: seq<Turn>, ops: seq<Op>, rest: seq<Turn>)
    requires cfg.Valid() && Prompt(rest, cfg.FreshBreaker().cooldown)
    ensures Governed(cfg, After(cfg, NewClient(cfg, now, ua, script), ops).(script := rest))
  {
    S.RunsKeep(cfg, NewClient(cfg, now, ua, script), ops);
    LogBreaker(cfg, After(cfg, NewClient(cfg, now, ua, script), ops).log);
  }

  // ---- A threshold of one ----

  /** An attempt that is repeated at its index has opened the breaker. */
  ghost predicate OpensOnRepeat(cfg: Config, i: nat, v: Verdict) {
    v.Again? && v.next == i ==> FailsFast(cfg, v.state)
  }

  lemma BlockGoverned(cfg: Config, st: State, kind: Kind, i: nat, d: int, turn: Turn)
    requires i < cfg.retryMax && Governed(cfg, st)
    requires turn.solution.Some? ==> turn.solveDelay < cfg.FreshBreaker().cooldown
    ensures var v := AfterBlockedReply(cfg, st, kind, i, d, turn);
      && Governed(cfg, VerdictState(v))
      && (cfg.HasCircuit() && st.breaker.threshold == 1 ==> OpensOnRepeat(cfg, i, v))
  {
    BlockedReplyFacts(cfg, st, kind, i, d, turn);
  }

  lemma GiveUpGoverned(cfg: Config, st: State, kind: Kind, i: nat, error: Error, d: int, turn: Turn)
    requires i < cfg.retryMax && Governed(cfg, st)
    ensures var v := GiveUpOrSleep(cfg, st, kind, i, error, d, turn);
      Governed(cfg, VerdictState(v)) && OpensOnRepeat(cfg, i, v)
  {
    GiveUpFacts(cfg, st, kind, i, error, d, turn);
  }

  lemma SettleGoverned(cfg: Config, st: State, kind: Kind, i: nat, turn: Turn)
    requires i < cfg.retryMax && Governed(cfg, st)
    requires turn.solution.Some? ==> turn.solveDelay < cfg.FreshBreaker().cooldown
    ensures var v := Settle(cfg, st, kind, i, turn);
      && Governed(cfg, VerdictState(v))
      && (cfg.HasCircuit() && st.breaker.threshold == 1 ==> OpensOnRepeat(cfg, i, v))
  {
    var d := BackoffDelay(cfg, i, turn.jitter);
    match Classify(cfg, turn.reply)
    case Clean(body) => OnCleanFacts(cfg, st, kind, body);
    case Final(_) =>
    case Retryable(error) => GiveUpGoverned(cfg, st, kind, i, error, d, turn);
    case BlockedReply(secs) =>
      BlockGoverned(cfg, st, kind, i, d, turn);
      BlockGoverned(cfg, st.Later(secs * 1_000_000_000), kind, i, d, turn);
  }

  /** What a pass leaves is governed if what building its request leaves is. */
  lemma PassGoverned(cfg: Config, st: State, kind: Kind, i: nat)
    requires cfg.Valid() && i < cfg.retryMax && Governed(cfg, st)
    requires Sending(cfg, st) ==> Governed(cfg, Build(cfg, Begin(st), kind).state)
    ensures var v := Pass(cfg, st, kind, i);
      && Governed(cfg, VerdictState(v))
      && (cfg.HasCircuit() && st.breaker.threshold == 1 ==> OpensOnRepeat(cfg, i, v))
  {
    if st.script != [] {
      var turn := st.script[0];
      assert turn in st.script;
      PromptTail(st.script, st.script[1..], cfg.FreshBreaker().cooldown);
      if Sending(cfg, st) {
        var built := Build(cfg, Begin(st), kind);
        if built.result.Ok? {
          SettleGoverned(cfg, Sent(built.state, kind, built.result.value, turn), kind, i, turn);
        }
      }
    }
  }

  lemma BegunGoverned(cfg: Config, st: State)
    requires Governed(cfg, st) && st.script != []
    ensures Governed(cfg, Begin(st))
  {
    PromptTail(st.script, st.script[1..], cfg.FreshBreaker().cooldown);
  }

  lemma {:induction false} PlainGoverned(cfg: Config, st: State, kind: Kind, i: nat)
    requires cfg.Valid() && i < cfg.retryMax && !kind.DjsReq? && Governed(cfg, st)
    ensures Governed(cfg, Retry(cfg, st, kind, i).state)
    decreases |st.script|
  {
    if Sending(cfg, st) {
      BegunGoverned(cfg, st);
    }
    PassGoverned(cfg, st, kind, i);
    var v := Pass(cfg, st, kind, i);
    if v.Again? {
      PlainGoverned(cfg, v.state, kind, v.next);
    }
  }

  lemma TokenGoverned(cfg: Config, st: State, query: string)
    requires cfg.Valid() && cfg.HasCircuit() && Governed(cfg, st) && st.breaker.threshold == 1
    ensures var out := GetVQD(cfg, st, query).state; Governed(cfg, out) && Sends(out) <= Sends(st) + cfg.retryMax
  {
    var key := CacheKey(query, st.ua);
    if Cached(st, key) {
      RequestsPush(st.log, Hit(st.cache[key].value, query, st.ua, st.now));
    } else {
      PlainGoverned(cfg, st, TokenReq(query), 0);
      SolvedCallCost(cfg, st, TokenReq(query));
      var fetched := Retry(cfg, st, TokenReq(query), 0);
      if fetched.result.Ok? {
        RequestsPush(fetched.state.log, Issued(cfg.vqdOf(fetched.result.value), query, st.ua, fetched.state.now));
      }
    }
  }

  lemma OpenSendsNothing(cfg: Config, st: State, kind: Kind, i: nat)
    requires cfg.Valid() && i < cfg.retryMax && FailsFast(cfg, st)
    ensures Sends(Retry(cfg, st, kind, i).state) == Sends(st)
  {
    RequestsPush(st.log, FailFast(st.now));
  }

  lemma DjsPass(cfg: Config, st: State, query: string, i: nat)
    requires cfg.Valid() && i < cfg.retryMax && cfg.HasCircuit() && Governed(cfg, st) && st.breaker.threshold == 1
    ensures var v := Pass(cfg, st, DjsReq(query), i); var after := VerdictState(v);
      && Governed(cfg, after) && OpensOnRepeat(cfg, i, v)
      && (v.Again? ==> v.next == i || v.next == i + 1)
      && Sends(after) <= Sends(st) + cfg.retryMax + 1
  {
    if Sending(cfg, st) {
      BegunGoverned(cfg, st);
      TokenGoverned(cfg, Begin(st), query);
    }
    PassFacts(cfg, st, DjsReq(query), i);
    PassGoverned(cfg, st, DjsReq(query), i);
  }

  /** With a threshold of one the first block ends the call, or its next attempt has a larger index. */
  lemma {:induction false} DjsCost(cfg: Config, st: State, query: string, i: nat)
    requires cfg.Valid() && i < cfg.retryMax && cfg.HasCircuit() && Governed(cfg, st) && st.breaker.threshold == 1
    ensures Sends(Retry(cfg, st, DjsReq(query), i).state) <= Sends(st) + NestedPrice(cfg.retryMax - i, cfg.retryMax)
    decreases |st.script|
  {
    DjsPass(cfg, st, query, i);
    var v := Pass(cfg, st, DjsReq(query), i);
    if v.Again? {
      if v.next == i {
        OpenSendsNothing(cfg, v.state, DjsReq(query), i);
      } else {
        DjsCost(cfg, v.state, query, v.next);
      }
    }
  }

  // ---- No tokens ----

  /** A call succeeds only with a clean reply. */
  lemma {:induction false} OkIsClean(cfg: Config, st: State, kind: Kind, i: nat)
    requires cfg.Valid() && i < cfg.retryMax
    ensures var out := Retry(cfg, st, kind, i);
      out.result.Ok? ==> exists reply :: Classify(cfg, reply) == Clean(out.result.value)
    decreases |st.script|
  {
    var v := Pass(cfg, st, kind, i);
    if v.Again? {
      OkIsClean(cfg, v.state, kind, v.next);
    } else if v.out.result.Ok? {
      assert Classify(cfg, st.script[0].reply) == Clean(v.out.result.value);
    }
  }

  /** Where no page issues a token only a cached one is used, and otherwise the fetch is the end of the call. */
  lemma TokenlessBuild(cfg: Config, st: State, query: string)
    requires cfg.Valid() && cfg.HasCircuit() && Governed(cfg, st) && !CanIssue(cfg)
    ensures var out := GetVQD(cfg, st, query); var key := CacheKey(query, st.ua);
      if Cached(st, key) then
        out == Outcome(Ok(st.cache[key].value), st.Log(Hit(st.cache[key].value, query, st.ua, st.now)))
      else out.result.Fail? && Sends(out.state) <= Sends(st) + cfg.retryMax + st.breaker.threshold - 1
  {
    if !Cached(st, CacheKey(query, st.ua)) {
      SolvedCallCost(cfg, st, TokenReq(query));
      OkIsClean(cfg, st, TokenReq(query), 0);
      var fetched := Retry(cfg, st, TokenReq(query), 0);
      if fetched.result.Ok? {
        var reply :| Classify(cfg, reply) == Clean(fetched.result.value);
        assert !Issues(cfg, reply);
      }
    }
  }

  lemma TokenlessPass(cfg: Config, st: State, query: string, i: nat)
    requires cfg.Valid() && i < cfg.retryMax && cfg.HasCircuit() && Governed(cfg, st) && !CanIssue(cfg)
    ensures match Pass(cfg, st, DjsReq(query), i)
      case Done(out) =>
        Sends(out.state) <= Sends(st) + SendBound(cfg, st, i) + cfg.retryMax + st.breaker.threshold - 1
      case Again(next, after) =>
        Governed(cfg, after) && Sends(after) + SendBound(cfg, after, next) <= Sends(st) + SendBound(cfg, st, i)
  {
    PassFacts(cfg, st, DjsReq(query), i);
    if Sending(cfg, st) {
      var begun, turn := Begin(st), st.script[0];
      assert turn in st.script;
      BegunGoverned(cfg, st);
      TokenlessBuild(cfg, begun, query);
      var built := GetVQD(cfg, begun, query);
      if built.result.Ok? {
        RequestsPush(begun.log, Hit(built.result.value, query, begun.ua, begun.now));
        AttemptIsPaid(cfg, Sent(built.state, DjsReq(query), built.result.value, turn), DjsReq(query), i, turn);
        PassGoverned(cfg, st, DjsReq(query), i);
      }
    }
  }

  lemma {:induction false} TokenlessCost(cfg: Config, st: State, query: string, i: nat)
    requires cfg.Valid() && i < cfg.retryMax && cfg.HasCircuit() && Governed(cfg, st) && !CanIssue(cfg)
    ensures Sends(Retry(cfg, st, DjsReq(query), i).state)
      <= Sends(st) + SendBound(cfg, st, i) + cfg.retryMax + st.breaker.threshold - 1
    decreases |st.script|
  {
    TokenlessPass(cfg, st, query, i);
    var v := Pass(cfg, st, DjsReq(query), i);
    if v.Again? {
      TokenlessCost(cfg, v.state, query, v.next);
    }
  }

  // ---- Bounded configurations ----

  /** No call of this kind sends more than bound requests, as long as solved challenges are retried in time. */
  ghost predicate Within(cfg: Config, djs: bool, bound: nat)
    requires cfg.Valid()
  {
    forall st, kind: Kind :: Governed(cfg, st) && kind.DjsReq? == djs ==> CallWithin(cfg, st, kind, bound)
  }

  ghost predicate CallWithin(cfg: Config, st: State, kind: Kind, bound: nat)
    requires cfg.Valid()
  {
    Sends(Retry(cfg, st, kind, 0).state) <= Sends(st) + bound
  }

  ghost predicate Bounded(cfg: Config, djs: bool)
    requires cfg.Valid()
  {
    exists bound: nat :: Within(cfg, djs, bound)
  }

  lemma {:induction false} RepeatPrompt(turn: Turn, n: nat, cooldown: int)
    requires turn.solveDelay < cooldown
    ensures Prompt(Repeat(turn, n), cooldown)
  {
    if n > 0 {
      RepeatPrompt(turn, n - 1, cooldown);
    }
  }

  lemma {:induction false} RoundsPrompt(blocked: Reply, page: Reply, wait: nat, n: nat, cooldown: int)
    requires cooldown > 0
    ensures Prompt(Rounds(blocked, page, wait, n), cooldown)
  {
    if n > 0 {
      RoundsPrompt(blocked, page, wait, n - 1, cooldown);
    }
  }

  /** A reply that is taken for a block without a pause of its own. */
  lemma SomeBlock(cfg: Config) returns (reply: Reply)
    requires Engages(cfg)
    ensures Blocks(cfg, reply)
  {
    reply :| Classify(cfg, reply).BlockedReply?;
    reply := reply.(retryAfter := 0);
  }

  lemma NoBreakerNotWithin(cfg: Config, djs: bool, bound: nat)
    requires cfg.Valid() && Engages(cfg) && !cfg.HasCircuit()
    ensures !Within(cfg, djs, bound)
  {
    var reply := SomeBlock(cfg);
    var challenge := Challenge(reply, 0, 0);
    var script := Repeat(challenge, bound + 2);
    var st := NewClient(cfg, 0, "", script);
    RepeatPrompt(challenge, bound + 2, cfg.FreshBreaker().cooldown);
    if djs {
      assert Begin(st).script == Repeat(challenge, bound + 1);
      UncheckedSolverIsUnbounded(cfg, Begin(st), TokenReq(""), reply, 0, bound + 1);
      TokenCallSends(cfg, st, "");
      assert !CallWithin(cfg, st, DjsReq(""), bound);
    } else {
      UncheckedSolverIsUnbounded(cfg, st, HtmlReq(""), reply, 0, bound + 2);
      assert !CallWithin(cfg, st, HtmlReq(""), bound);
    }
  }

  /** A d.js call whose token cannot be fetched sends what the attempt to fetch it sends. */
  lemma TokenCallSends(cfg: Config, st: State, query: string)
    requires cfg.Valid() && Sending(cfg, st) && !Cached(Begin(st), CacheKey(query, st.ua))
    requires !Retry(cfg, Begin(st), TokenReq(query), 0).result.Ok?
    ensures Sends(Retry(cfg, st, DjsReq(query), 0).state) == Sends(Retry(cfg, Begin(st), TokenReq(query), 0).state)
  {
    var fetched := Retry(cfg, Begin(st), TokenReq(query), 0);
    assert GetVQD(cfg, Begin(st), query) == fetched;
    assert Build(cfg, Begin(st), DjsReq(query)) == fetched;
    assert Pass(cfg, st, DjsReq(query), 0) == Done(fetched);
  }

  /** The requests of a plain call are bounded if and only if there is a breaker, or no challenge is ever solved. */
  lemma PlainBoundedIff(cfg: Config)
    requires cfg.Valid()
    ensures Bounded(cfg, false) <==> cfg.HasCircuit() || !Engages(cfg)
  {
    if cfg.HasCircuit() {
      var bound: nat := cfg.retryMax + cfg.FreshBreaker().threshold - 1;
      forall st, kind: Kind | Governed(cfg, st) && !kind.DjsReq? ensures CallWithin(cfg, st, kind, bound) {
        SolvedCallCost(cfg, st, kind);
      }
      assert Within(cfg, false, bound);
    } else if !Engages(cfg) {
      forall st, kind: Kind | Governed(cfg, st) && !kind.DjsReq? ensures CallWithin(cfg, st, kind, cfg.retryMax) {
        PlainCost(cfg, st, kind, 0);
      }
      assert Within(cfg, false, cfg.retryMax);
    } else {
      forall bound: nat ensures !Within(cfg, false, bound) {
        NoBreakerNotWithin(cfg, false, bound);
      }
    }
  }

  ghost predicate CanIssue(cfg: Config) {
    exists page :: Issues(cfg, page)
  }

  lemma LenientNotWithin(cfg: Config, bound: nat)
    requires cfg.Valid() && Engages(cfg) && CanIssue(cfg) && cfg.FreshBreaker().threshold >= 2
    ensures !Within(cfg, true, bound)
  {
    var blocked := SomeBlock(cfg);
    var page :| Issues(cfg, page);
    var script := Rounds(blocked, page, cfg.vqdTTL, bound + 1);
    var st := NewClient(cfg, 0, "", script);
    RoundsPrompt(blocked, page, cfg.vqdTTL, bound + 1, cfg.FreshBreaker().cooldown);
    TokenSuccessDefeatsBreaker(cfg, st, "", blocked, page, cfg.vqdTTL, bound + 1);
    assert !CallWithin(cfg, st, DjsReq(""), bound);
  }

  /** What bounds the d.js calls of a configuration: no solved challenge, a breaker of one, or no token at all. */
  ghost predicate Tame(cfg: Config) {
    !Engages(cfg) || (cfg.HasCircuit() && (cfg.FreshBreaker().threshold == 1 || !CanIssue(cfg)))
  }

  lemma TameIsBounded(cfg: Config)
    requires cfg.Valid() && Tame(cfg)
    ensures Bounded(cfg, true)
  {
    var price := NestedPrice(cfg.retryMax, cfg.retryMax);
    var bound: nat := Max(price, 2 * (cfg.retryMax + cfg.FreshBreaker().threshold - 1));
    forall st, kind: Kind | Governed(cfg, st) && kind.DjsReq? ensures CallWithin(cfg, st, kind, bound) {
      if !Engages(cfg) {
        NestedCost(cfg, st, kind.query, 0);
      } else if cfg.FreshBreaker().threshold == 1 {
        DjsCost(cfg, st, kind.query, 0);
      } else {
        TokenlessCost(cfg, st, kind.query, 0);
      }
    }
    assert Within(cfg, true, bound);
  }

  /**
   The requests of a d.js call are bounded if and only if no challenge is ever solved, or there is a
   breaker that either opens at the first block or is never reset by the success of a fetched token.
   */
  lemma DjsBoundedIff(cfg: Config)
    requires cfg.Valid()
    ensures Bounded(cfg, true) <==> Tame(cfg)
  {
    if Tame(cfg) {
      TameIsBounded(cfg);
    } else {
      forall bound: nat ensures !Within(cfg, true, bound) {
        if cfg.HasCircuit() {
          LenientNotWithin(cfg, bound);
        } else {
          NoBreakerNotWithin(cfg, true, bound);
        }
      }
    }
  }

  /** The bound for a threshold of one. */
  lemma DjsCallCost(cfg: Config, st: State, query: string)
    requires cfg.Valid() && cfg.HasCircuit() && Governed(cfg, st) && cfg.FreshBreaker().threshold == 1
    ensures Sends(Retry(cfg, st, DjsReq(query), 0).state) <= Sends(st) + cfg.retryMax * (cfg.retryMax + 1)
  {
    DjsCost(cfg, st, query, 0);
    NestedPriceProduct(cfg.retryMax, cfg.retryMax);
  }
}
