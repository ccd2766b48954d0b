/** The client's methods, which update it in place, and their agreement with the protocol functions. */
module ClientObject {
  import opened ClientModel
  import CB = CircuitBreaker
  import Text

  class Client {
    const cfg: Config
    const circuit: CB.Circuit  // consulted only when the configuration has one
    var now: int
    var ua: string
    var vqdCache: map<string, Token>
    var script: seq<Turn>      // what the outside world will do
    ghost var log: seq<Event>

    ghost function View(): State
      reads this, circuit
    {
      State(now, circuit.View(), ua, vqdCache, script, log)
    }

    /** The verdict that a pass reports by its results and the state it leaves. */
    ghost predicate Ended(v: Verdict, done: bool, r: Result<string>, j: int)
      reads this, circuit
    {
      if done then v.Done? && v.out.result == r && v.out.state == View()
      else v.Again? && v.next == j + 1 && v.state == View()
    }

    /** NewClient, from the options as given. */
    constructor (raw: Config, now: int, ua: string, script: seq<Turn>)
      ensures cfg == WithDefaults(raw) && fresh(circuit)
      ensures View() == NewClient(cfg, now, ua, script)
      ensures vqdCache == map[] && log == [] && circuit.consecutive == 0 && circuit.openUntil.None?
      ensures Text.Trim(ua) != "" ==> this.ua == Text.Trim(ua)
    {
      cfg := WithDefaults(raw);
      this.now := now;
      this.ua := if Text.Trim(ua) == "" then DEFAULT_UA else Text.Trim(ua);
      this.vqdCache := map[];
      this.script := script;
      this.log := [];
      var breaker := new CB.Circuit(if raw.antiBot.Some? then raw.antiBot.value.threshold else 0,
                                    if raw.antiBot.Some? then raw.antiBot.value.cooldown else 0);
      this.circuit := breaker;
    }

    method ClearAllVQD()
      modifies this`vqdCache
      ensures vqdCache == map[]
    {
      vqdCache := map[];
    }

    method ApplySolution(solved: string)
      modifies this`ua
      ensures ua == if solved != "" then solved else old(ua)
    {
      if solved != "" {
        ua := solved;
      }
    }

    /** The success path of an attempt. */
    method NoteSuccess(ghost kind: Kind, body: string)
      modifies this, circuit
      ensures View() == OnClean(cfg, old(View()), kind, body)
    {
      log := log + [Success(kind, body, now)];
      if cfg.HasCircuit() {
        var closed, _ := circuit.RecordSuccess(now);
        if closed {
          log := log + [Reset(now)];
        }
      }
    }

    /** Tells the breaker and the token cache about a block. */
    method NoteBlock(lag: nat)
      modifies this, circuit
      ensures View() == OnBlock(cfg, old(View()), lag)
    {
      log := log + [Block(now, now + lag)];
      if cfg.HasCircuit() {
        var tripped, _ := circuit.RecordBlock(now, now + lag);
        if tripped {
          log := log + [Opened(now + lag)];
        }
      }
      now := now + lag;
      if cfg.Invalidates() {
        ClearAllVQD();
      }
    }

    /** The block-response handling of an attempt, up to the backoff. */
    method HandleBlock(turn: Turn) returns (solved: bool)
      modifies this, circuit
      ensures View() == AfterSolver(cfg, OnBlock(cfg, old(View()), turn.lag), turn)
      ensures solved == Solves(cfg, turn)
    {
      NoteBlock(turn.lag);
      if cfg.HasSolver() {
        now := now + turn.solveDelay;
        if turn.solution.Some? {
          ApplySolution(turn.solution.value);
          return true;
        }
      }
      return false;
    }

    /** False when the context is cancelled during the sleep. */
    method SleepBackoff(ghost kind: Kind, i: nat, turn: Turn) returns (ok: bool)
      modifies this`now, this`log
      ensures var d := BackoffDelay(cfg, i, turn.jitter);
        && ok == (d <= 0 || turn.sleepOk)
        && now == (if d > 0 && turn.sleepOk then old(now) + d else old(now))
        && log == if d > 0 then old(log) + [Backoff(kind, i, d)] else old(log)
    {
      var d := BackoffDelay(cfg, i, turn.jitter);
      if d <= 0 {
        return true;
      }
      log := log + [Backoff(kind, i, d)];
      if !turn.sleepOk {
        return false;
      }
      now := now + d;
      return true;
    }

    /**
     One pass of the loop from the reply on. When done is false the loop goes on; the index has been put
     back for a solved challenge, so that the increment repeats it.
     */
    method Attempt(kind: Kind, i: nat, turn: Turn) returns (done: bool, r: Result<string>, j: int)
      requires i < cfg.retryMax
      modifies this, circuit
      ensures Ended(Settle(cfg, old(View()), kind, i, turn), done, r, j)
    {
      j := i;
      var lastErr: Error;
      match turn.reply {
        case Failed => lastErr := Network;
        case Response(status, body, retryAfter) =>
          if status in cfg.blockedStatus {
            lastErr := Blocked;
            if retryAfter > 0 && i < cfg.retryMax - 1 {
              if !turn.retryAfterOk {
                return true, Fail(ContextDone), j;
              }
              now := now + retryAfter * 1_000_000_000;
            }
          } else if 200 <= status < 300 {
            if cfg.detects(body) {
              lastErr := Blocked;
            } else {
              NoteSuccess(kind, body);
              return true, Ok(body), j;
            }
          } else if status == 429 || status >= 500 {
            lastErr := Server(status);
          } else {
            return true, Fail(Refused(status)), j;
          }
      }
      if lastErr.Blocked? {
        done, r, j := AfterBlock(kind, i, turn);
      } else {
        done, r := EndOfPass(kind, i, lastErr, turn);
      }
    }

    /** The rest of a pass whose reply was a block. */
    method AfterBlock(ghost kind: Kind, i: nat, turn: Turn) returns (done: bool, r: Result<string>, j: int)
      requires i < cfg.retryMax
      modifies this, circuit
      ensures Ended(AfterBlockedReply(cfg, old(View()), kind, i, BackoffDelay(cfg, i, turn.jitter), turn), done, r, j)
    {
      j := i;
      var solved := HandleBlock(turn);
      if solved {
        return false, Fail(Blocked), j - 1;
      }
      done, r := EndOfPass(kind, i, Blocked, turn);
    }

    method EndOfPass(ghost kind: Kind, i: nat, lastErr: Error, turn: Turn) returns (done: bool, r: Result<string>)
      requires i < cfg.retryMax
      modifies this`now, this`log
      ensures var v := GiveUpOrSleep(cfg, old(View()), kind, i, lastErr, BackoffDelay(cfg, i, turn.jitter), turn);
        if done then v == Done(Outcome(r, View())) else v == Again(i + 1, View())
    {
      if i == cfg.retryMax - 1 {
        return true, Fail(lastErr);
      }
      var ok := SleepBackoff(kind, i, turn);
      if !ok {
        return true, Fail(ContextDone);
      }
      return false, Fail(lastErr);
    }

    /** Builds the request, sends it and settles the reply. */
    method SendOnce(kind: Kind, i: nat, turn: Turn) returns (done: bool, r: Result<string>, j: int)
      requires cfg.Valid() && i < cfg.retryMax
      modifies this, circuit
      ensures var built := Build(cfg, old(View()), kind);
        if built.result.Fail? then done && built == Outcome(r, View())
        else Ended(Settle(cfg, Sent(built.state, kind, built.result.value, turn), kind, i, turn), done, r, j)
      decreases |script|, 4
    {
      var built := BuildReq(kind);
      if built.Fail? {
        return true, built, i;
      }
      log := log + [Request(kind, built.value, ua, now)];
      now := now + turn.travel;
      assert View() == Sent(Build(cfg, old(View()), kind).state, kind, built.value, turn);
      done, r, j := Attempt(kind, i, turn);
    }

    /** One pass of the loop. */
    method PassOnce(kind: Kind, i: nat) returns (done: bool, r: Result<string>, j: int)
      requires cfg.Valid() && i < cfg.retryMax
      modifies this, circuit
      ensures Ended(Pass(cfg, old(View()), kind, i), done, r, j)
      decreases |script|, 0
    {
      j := i;
      if cfg.HasCircuit() {
        var open := circuit.Open(now);
        if open {
          log := log + [FailFast(now)];
          return true, Fail(CircuitOpen), j;
        }
      }
      if script == [] {
        return true, Fail(ContextDone), j;
      }
      var turn := script[0];
      script, now := script[1..], now + turn.wait;
      assert View() == Begin(old(View()));
      if !turn.waitOk {
        return true, Fail(ContextDone), j;
      }
      done, r, j := SendOnce(kind, i, turn);
    }

    method DoWithRetry(kind: Kind) returns (r: Result<string>)
      requires cfg.Valid()
      modifies this, circuit
      ensures Outcome(r, View()) == Retry(cfg, old(View()), kind, 0)
      decreases |script|, 1
    {
      var i := 0;
      while i < cfg.retryMax
        invariant 0 <= i < cfg.retryMax
        invariant |script| <= |old(script)|
        invariant Retry(cfg, View(), kind, i) == Retry(cfg, old(View()), kind, 0)
        decreases |script|
      {
        var done, result, j := PassOnce(kind, i);
        if done {
          return result;
        }
        i := j + 1;
      }
      assert false;
    }

    method BuildReq(kind: Kind) returns (r: Result<string>)
      requires cfg.Valid()
      modifies this, circuit
      ensures Outcome(r, View()) == Build(cfg, old(View()), kind)
      decreases |script|, 3
    {
      if kind.DjsReq? {
        r := FetchVQD(kind.query);
      } else {
        r := Ok("");
      }
    }

    /** getVQD */
    method FetchVQD(query: string) returns (r: Result<string>)
      requires cfg.Valid()
      modifies this, circuit
      ensures Outcome(r, View()) == GetVQD(cfg, old(View()), query)
      decreases |script|, 2
    {
      var cacheKey := CacheKey(query, ua);
      var asked := now;
      ghost var askedAs := ua;
      if cacheKey in vqdCache && vqdCache[cacheKey].value != "" && asked < vqdCache[cacheKey].expiresAt {
        log := log + [Hit(vqdCache[cacheKey].value, query, ua, now)];
        return Ok(vqdCache[cacheKey].value);
      }
      var body := DoWithRetry(TokenReq(query));
      if body.Fail? {
        return body;
      }
      var vqd := cfg.vqdOf(body.value);
      if vqd == "" {
        return Fail(NoVQD);
      }
      vqdCache := vqdCache[cacheKey := Token(vqd, asked + cfg.vqdTTL)];
      log := log + [Issued(vqd, query, askedAs, now)];
      return Ok(vqd);
    }

    method FromDJS(query: string) returns (r: Result<seq<string>>)
      requires cfg.Valid()
      modifies this, circuit
      ensures Outcome(r, View()) == SearchDJS(cfg, old(View()), query)
    {
      var body := DoWithRetry(DjsReq(query));
      if body.Fail? {
        return Fail(body.error);
      }
      var results := cfg.djsResults(body.value);
      if results.None? {
        return Fail(UnexpectedBody);
      }
      return if results.value == [] then Fail(NoResults) else Ok(results.value);
    }

    method FromHTML(query: string) returns (r: Result<seq<string>>)
      requires cfg.Valid()
      modifies this, circuit
      ensures Outcome(r, View()) == SearchHTML(cfg, old(View()), query)
    {
      var body := DoWithRetry(HtmlReq(query));
      if body.Fail? {
        return Fail(body.error);
      }
      var results := cfg.htmlResults(body.value);
      return if results == [] then Fail(NoResults) else Ok(results);
    }

    /** Search; the protocol theorems about the function Search are about this method. */
    method Find(rawQuery: string, maxResults: int) returns (r: Result<seq<string>>)
      requires cfg.Valid()
      modifies this, circuit
      ensures Outcome(r, View()) == Search(cfg, old(View()), rawQuery, maxResults)
    {
      var query := Text.Trim(rawQuery);
      if query == "" {
        return Fail(BadQuery);
      }
      var max := if maxResults <= 0 then 10 else maxResults;
      r := FromDJS(query);
      if r.Ok? {
        return Ok(Clip(r.value, max));
      }
      if cfg.noFallback {
        return;
      }
      r := FromHTML(query);
      if r.Ok? {
        r := Ok(Clip(r.value, max));
      }
    }
  }
}
