/** Provider failover and the event trace it emits. */
module Engine {
  import opened Common
  import opened Text

  datatype ErrorKind =
    | KindBlocked | KindRateLimited | KindProviderUnavailable | KindParse
    | KindInvalidInput | KindNoResults | KindInternal

  /** What a provider's error unwraps to. A detector of "" stands for a missing detail. */
  datatype ProviderErr =
    | Structured(kind: ErrorKind, detail: string)
    | BlockedErr(detector: string)
    | NoResultsErr | NoVQDErr | UnexpectedBodyErr | OtherErr

  datatype Classified = Classified(kind: ErrorKind, detector: string)

  /** classifyError; a provider without error and without results counts as having no results. */
  function Classify(err: Option<ProviderErr>): Classified {
    match err
    case None => Classified(KindNoResults, "")
    case Some(Structured(kind, detail)) => Classified(kind, detail)
    case Some(BlockedErr(detector)) => Classified(KindBlocked, detector)
    case Some(NoResultsErr) => Classified(KindNoResults, "")
    case Some(NoVQDErr) => Classified(KindParse, "")
    case Some(UnexpectedBodyErr) => Classified(KindParse, "")
    case Some(OtherErr) => Classified(KindProviderUnavailable, "")
  }

  /** A provider and what its Search will return. */
  datatype Provider = Provider(name: string, enabled: bool, results: seq<string>, err: Option<ProviderErr>)

  datatype Event =
    | SearchStart
    | ProviderStart(name: string)
    | BlockedBy(name: string, detector: string)
    | ProviderEnd(name: string, failure: Option<ErrorKind>)
    | Fallback(name: string, kind: ErrorKind)
    | SearchFinish

  datatype Failure = Failure(provider: string, kind: ErrorKind)

  datatype Diagnostics = Diagnostics(
    attempts: nat, chain: seq<string>, timed: set<string>, errors: seq<Failure>, block: Option<string>)

  datatype Verdict = Served | InvalidInput | NoEnabledProviders | AllExhausted

  datatype Response = Response(
    verdict: Verdict, results: seq<string>, provider: string, fallbackUsed: bool, diag: Diagnostics)

  // ---- Specification ----

  /** An enabled provider that answers with results. */
  predicate Serves(p: Provider) {
    p.enabled && p.err.None? && p.results != []
  }

  /** The position of the first provider that serves, or the length when none does. */
  function Winner(ps: seq<Provider>): (k: nat)
    ensures k <= |ps|
    ensures k < |ps| ==> Serves(ps[k])
    ensures forall j :: 0 <= j < k ==> !Serves(ps[j])
  {
    if ps == [] || Serves(ps[0]) then 0 else 1 + Winner(ps[1..])
  }

  function Enabled(ps: seq<Provider>): seq<Provider> {
    if ps == [] then [] else
    Enabled(ps[..|ps| - 1]) + if ps[|ps| - 1].enabled then [ps[|ps| - 1]] else []
  }

  function Names(ps: seq<Provider>): (names: seq<string>)
    ensures |names| == |ps|
  {
    seq(|ps|, i requires 0 <= i < |ps| => ps[i].name)
  }

  function FailureOf(p: Provider): Failure {
    Failure(p.name, Classify(p.err).kind)
  }

  function Failures(ps: seq<Provider>): (fs: seq<Failure>)
    ensures |fs| == |ps|
  {
    seq(|ps|, i requires 0 <= i < |ps| => FailureOf(ps[i]))
  }

  /** The detector reported for the last of the given providers that was blocked. */
  function LastBlock(ps: seq<Provider>): Option<string> {
    if ps == [] then None else
    BlockAfter(ps[|ps| - 1], LastBlock(ps[..|ps| - 1]))
  }

  function BlockAfter(p: Provider, before: Option<string>): Option<string> {
    var c := Classify(p.err);
    if c.kind.KindBlocked? then Some(Detector(c)) else before
  }

  function Detector(c: Classified): string {
    if c.detector != "" then c.detector else "blocked"
  }

  /** What an enabled provider that does not serve contributes to the trace. */
  function Section(p: Provider, last: bool): seq<Event> {
    var c := Classify(p.err);
    [ProviderStart(p.name)]
    + (if c.kind.KindBlocked? then [BlockedBy(p.name, Detector(c))] else [])
    + [ProviderEnd(p.name, Some(c.kind))]
    + if last then [] else [Fallback(p.name, c.kind)]
  }

  function Success(p: Provider): seq<Event> {
    [ProviderStart(p.name), ProviderEnd(p.name, None)]
  }

  function Sections(ps: seq<Provider>, n: nat): seq<Event>
    requires n <= |ps|
  {
    if n == 0 then [] else
    Sections(ps, n - 1) + if ps[n - 1].enabled then Section(ps[n - 1], n == |ps|) else []
  }

  function Trace(ps: seq<Provider>): seq<Event> {
    var k := Winner(ps);
    [SearchStart] + Sections(ps, k)
    + (if k < |ps| then Success(ps[k]) else [])
    + [SearchFinish]
  }

  // ---- The engine ----

  class Engine {
    const providers: seq<Provider>
    var trace: seq<Event>

    constructor (providers: seq<Provider>)
      ensures this.providers == providers && trace == []
    {
      this.providers := providers;
      trace := [];
    }

    method Emit(e: Event)
      modifies this`trace
      ensures trace == old(trace) + [e]
    {
      trace := trace + [e];
    }

    method Search(query: string) returns (r: Response)
      modifies this`trace
      ensures Trim(query) == "" ==> r.verdict.InvalidInput? && trace == old(trace)
      ensures Trim(query) != "" ==> trace == old(trace) + Trace(providers)
      ensures Trim(query) != "" ==> Answers(providers, r)
    {
      var diag := Diagnostics(0, [], {}, [], None);
      if Trim(query) == "" {
        return Response(InvalidInput, [], "", false, diag);
      }
      Emit(SearchStart);
      var idx := 0;
      while idx < |providers|
        invariant 0 <= idx <= |providers|
        invariant NoneServes(providers[..idx])
        invariant trace == old(trace) + ([SearchStart] + Sections(providers, idx))
        invariant Describes(providers[..idx], diag)
      {
        var p := providers[idx];
        NoneServesPush(providers, idx);
        DescribesPush(providers, idx, diag);
        TraceGrows(providers, idx, old(trace));
        if p.enabled {
          var served;
          ghost var before := diag;
          served, diag := Try(p, idx == |providers| - 1, diag);
          if served {
            Emit(SearchFinish);
            WinnerIs(providers, idx);
            TraceEnds(providers, old(trace));
            ServedAnswers(providers, idx, before);
            return Response(Served, p.results, p.name, idx > 0, diag);
          }
        }
        idx := idx + 1;
      }
      assert providers[..idx] == providers;
      Emit(SearchFinish);
      WinnerIs(providers, idx);
      TraceEnds(providers, old(trace));
      ExhaustedAnswers(providers, diag);
      r := Response(if |diag.errors| == 0 then NoEnabledProviders else AllExhausted, [], "", false, diag);
    }

    /** One enabled provider: the body of the loop. */
    method Try(p: Provider, last: bool, diag: Diagnostics) returns (served: bool, d: Diagnostics)
      requires p.enabled
      modifies this`trace
      ensures served == Serves(p)
      ensures trace == old(trace) + if served then Success(p) else Section(p, last)
      ensures d == if served then WithSuccess(diag, p) else WithFailure(diag, p)
    {
      d := diag.(chain := diag.chain + [p.name]);
      Emit(ProviderStart(p.name));
      d := d.(timed := d.timed + {p.name}, attempts := d.attempts + 1);
      if p.err.None? && |p.results| > 0 {
        Emit(ProviderEnd(p.name, None));
        return true, d;
      }
      var se := Classify(p.err);
      d := d.(errors := d.errors + [Failure(p.name, se.kind)]);
      if se.kind.KindBlocked? {
        d := d.(block := Some(Detector(se)));
        Emit(BlockedBy(p.name, Detector(se)));
      }
      Emit(ProviderEnd(p.name, Some(se.kind)));
      if !last {
        Emit(Fallback(p.name, se.kind));
      }
      served := false;
    }

    method EnabledProviders() returns (names: seq<string>)
      ensures names == Names(Enabled(providers))
    {
      names := [];
      var i := 0;
      while i < |providers|
        invariant 0 <= i <= |providers| && names == Names(Enabled(providers[..i]))
      {
        assert providers[..i + 1][..i] == providers[..i];
        if providers[i].enabled {
          names := names + [providers[i].name];
        }
        i := i + 1;
      }
      assert providers[..i] == providers;
    }
  }

  lemma EnabledPush(ps: seq<Provider>, i: nat)
    requires i < |ps|
    ensures Enabled(ps[..i + 1]) == Enabled(ps[..i]) + if ps[i].enabled then [ps[i]] else []
  {
    assert ps[..i + 1][..i] == ps[..i];
  }

  function WithSuccess(d: Diagnostics, p: Provider): Diagnostics {
    d.(attempts := d.attempts + 1, chain := d.chain + [p.name], timed := d.timed + {p.name})
  }

  function WithFailure(d: Diagnostics, p: Provider): Diagnostics {
    WithSuccess(d, p).(errors := d.errors + [FailureOf(p)], block := BlockAfter(p, d.block))
  }

  lemma DescribesPush(ps: seq<Provider>, i: nat, d: Diagnostics)
    requires i < |ps| && Describes(ps[..i], d)
    ensures !ps[i].enabled ==> Describes(ps[..i + 1], d)
    ensures ps[i].enabled ==> Describes(ps[..i + 1], WithFailure(d, ps[i]))
  {
    var es := Enabled(ps[..i]);
    EnabledPush(ps, i);
    assert (es + [ps[i]])[..|es|] == es;
    assert es + [] == es;
  }

  ghost predicate NoneServes(ps: seq<Provider>) {
    forall j :: 0 <= j < |ps| ==> !Serves(ps[j])
  }

  lemma NoneServesPush(ps: seq<Provider>, i: nat)
    requires i < |ps| && NoneServes(ps[..i])
    ensures !Serves(ps[i]) ==> NoneServes(ps[..i + 1])
  {
  }

  /** The trace before a provider, and what the provider adds to it. */
  lemma TraceGrows(ps: seq<Provider>, i: nat, before: seq<Event>)
    requires i < |ps|
    ensures before + ([SearchStart] + Sections(ps, i + 1)) ==
      if ps[i].enabled then before + ([SearchStart] + Sections(ps, i)) + Section(ps[i], i == |ps| - 1)
      else before + ([SearchStart] + Sections(ps, i))
  {
    assert Sections(ps, i) + [] == Sections(ps, i);
  }

  lemma WinnerIs(ps: seq<Provider>, k: nat)
    requires k <= |ps| && NoneServes(ps[..k]) && (k < |ps| ==> Serves(ps[k]))
    ensures Winner(ps) == k
  {
    forall j | 0 <= j < k ensures !Serves(ps[j]) {
      assert ps[..k][j] == ps[j];
    }
  }

  /** What the loop leaves in the trace, closed after the winning position. */
  lemma TraceEnds(ps: seq<Provider>, before: seq<Event>)
    ensures var k := Winner(ps);
      before + ([SearchStart] + Sections(ps, k)) + (if k < |ps| then Success(ps[k]) else []) + [SearchFinish]
        == before + Trace(ps)
    ensures Winner(ps) == |ps| ==> before + ([SearchStart] + Sections(ps, |ps|)) + [SearchFinish] == before + Trace(ps)
  {
    var k := Winner(ps);
    Close(before, [SearchStart] + Sections(ps, k), if k < |ps| then Success(ps[k]) else [], [SearchFinish]);
  }

  lemma Close<T>(a: seq<T>, b: seq<T>, c: seq<T>, d: seq<T>)
    ensures a + b + c + d == a + (b + c + d)
    ensures a + b + d == a + (b + [] + d)
  {
  }

  /** The diagnostics list every enabled provider, all of which failed. */
  ghost predicate Describes(ps: seq<Provider>, d: Diagnostics) {
    var es := Enabled(ps);
    && d.chain == Names(es) && d.attempts == |es| && d.timed == (set n | n in Names(es))
    && d.errors == Failures(es) && d.block == LastBlock(es)
  }

  /**
   The result is the first serving provider's, and the diagnostics list the enabled providers up to it,
   all but it with their failures; without one every enabled provider is listed with its failure.
   */
  ghost predicate Answers(ps: seq<Provider>, r: Response) {
    var k := Winner(ps);
    if k == |ps| then
      && r.verdict == (if Enabled(ps) == [] then NoEnabledProviders else AllExhausted)
      && r.results == [] && Describes(ps, r.diag)
    else
      var failed := Enabled(ps[..k]);
      && r.verdict == Served && r.results == ps[k].results && r.provider == ps[k].name
      && r.fallbackUsed == (k > 0)
      && r.diag.chain == Names(failed + [ps[k]]) && r.diag.attempts == |failed| + 1
      && r.diag.timed == (set n | n in r.diag.chain)
      && r.diag.errors == Failures(failed) && r.diag.block == LastBlock(failed)
  }

  lemma ServedAnswers(ps: seq<Provider>, k: nat, d: Diagnostics)
    requires k < |ps| && Winner(ps) == k && Describes(ps[..k], d)
    ensures Answers(ps, Response(Served, ps[k].results, ps[k].name, k > 0, WithSuccess(d, ps[k])))
  {
    var es := Enabled(ps[..k]);
    assert Names(es + [ps[k]]) == Names(es) + [ps[k].name];
  }

  lemma ExhaustedAnswers(ps: seq<Provider>, d: Diagnostics)
    requires Winner(ps) == |ps| && Describes(ps, d)
    ensures Answers(ps, Response(if |d.errors| == 0 then NoEnabledProviders else AllExhausted, [], "", false, d))
  {
  }

  // ---- The shape of a trace ----

  /** A recognizer for SearchStart (ProviderStart [Blocked] ProviderEnd [Fallback])* SearchFinish. */
  datatype Phase =
    | Idle | Ready | Running(name: string) | Refused(name: string) | Failed(name: string) | Successful | Done

  function Next(phase: Phase, e: Event): Option<Phase> {
    match (phase, e)
    case (Idle, SearchStart) => Some(Ready)
    case (Ready, ProviderStart(n)) => Some(Running(n))
    case (Ready, SearchFinish) => Some(Done)
    case (Running(n), BlockedBy(m, _)) => if n == m then Some(Refused(n)) else None
    case (Running(n), ProviderEnd(m, failure)) =>
      if n != m || failure == Some(KindBlocked) then None
      else Some(if failure.None? then Successful else Failed(n))
    case (Refused(n), ProviderEnd(m, failure)) =>
      if n == m && failure == Some(KindBlocked) then Some(Failed(n)) else None
    case (Failed(n), Fallback(m, _)) => if n == m then Some(Ready) else None
    case (Failed(_), SearchFinish) => Some(Done)
    case (Successful, SearchFinish) => Some(Done)
    case _ => None
  }

  function Reads(phase: Phase, events: seq<Event>): Option<Phase> {
    if events == [] then Some(phase) else
    match Reads(phase, events[..|events| - 1])
    case None => None
    case Some(p) => Next(p, events[|events| - 1])
  }

  lemma {:induction false} ReadsAppend(phase: Phase, a: seq<Event>, b: seq<Event>)
    requires Reads(phase, a).Some?
    ensures Reads(phase, a + b) == Reads(Reads(phase, a).value, b)
    decreases |b|
  {
    if b == [] {
      assert a + b == a;
    } else {
      var n := |b| - 1;
      assert (a + b)[..|a| + n] == a + b[..n];
      ReadsAppend(phase, a, b[..n]);
    }
  }

  lemma ReadsOne(phase: Phase, e: Event)
    ensures Reads(phase, [e]) == Next(phase, e)
  {
    assert [e][..0] == [];
  }

  lemma SectionReads(p: Provider, last: bool)
    ensures Reads(Ready, Section(p, last)) == Some(if last then Failed(p.name) else Ready)
  {
    var c := Classify(p.err);
    var start := [ProviderStart(p.name)];
    var block := if c.kind.KindBlocked? then [BlockedBy(p.name, Detector(c))] else [];
    var end := [ProviderEnd(p.name, Some(c.kind))];
    ReadsOne(Ready, start[0]);
    ReadsAppend(Ready, start, block);
    if block != [] {
      ReadsOne(Running(p.name), block[0]);
    }
    var mid := if c.kind.KindBlocked? then Refused(p.name) else Running(p.name);
    ReadsAppend(Ready, start + block, end);
    ReadsOne(mid, end[0]);
    ReadsAppend(Ready, start + block + end, if last then [] else [Fallback(p.name, c.kind)]);
    ReadsOne(Failed(p.name), Fallback(p.name, c.kind));
  }

  lemma {:induction false} SectionsRead(ps: seq<Provider>, n: nat)
    requires n <= |ps|
    ensures var p := Reads(Ready, Sections(ps, n)); p == Some(Ready) || (n == |ps| && p.Some? && p.value.Failed?)
  {
    if n > 0 {
      SectionsRead(ps, n - 1);
      SectionReads(ps[n - 1], n == |ps|);
      ReadsAppend(Ready, Sections(ps, n - 1), Section(ps[n - 1], n == |ps|));
      assert Sections(ps, n - 1) + [] == Sections(ps, n - 1);
    }
  }

  lemma SuccessReads(p: Provider)
    ensures Reads(Ready, Success(p)) == Some(Successful)
  {
    var won := Success(p);
    ReadsOne(Ready, won[0]);
    assert won[..1] == [won[0]];
  }

  lemma OpeningReads(ps: seq<Provider>, k: nat)
    requires k <= |ps|
    ensures var at := Reads(Idle, [SearchStart] + Sections(ps, k));
      at == Some(Ready) || (k == |ps| && at.Some? && at.value.Failed?)
  {
    ReadsOne(Idle, SearchStart);
    SectionsRead(ps, k);
    ReadsAppend(Idle, [SearchStart], Sections(ps, k));
  }

  lemma FinishReads(events: seq<Event>)
    requires var at := Reads(Idle, events); at.Some? && (at.value.Ready? || at.value.Failed? || at.value.Successful?)
    ensures Reads(Idle, events + [SearchFinish]) == Some(Done)
  {
    ReadsAppend(Idle, events, [SearchFinish]);
    ReadsOne(Reads(Idle, events).value, SearchFinish);
  }

  /** Whatever the providers do, the trace has the documented shape. */
  lemma TraceIsWellFormed(ps: seq<Provider>)
    ensures Reads(Idle, Trace(ps)) == Some(Done)
  {
    var k := Winner(ps);
    var opening := [SearchStart] + Sections(ps, k);
    OpeningReads(ps, k);
    if k < |ps| {
      SuccessReads(ps[k]);
      ReadsAppend(Idle, opening, Success(ps[k]));
      FinishReads(opening + Success(ps[k]));
    } else {
      FinishReads(opening);
      assert opening + [] == opening;
    }
  }

  function Ends(events: seq<Event>): nat {
    if events == [] then 0 else Ends(events[..|events| - 1]) + if events[|events| - 1].ProviderEnd? then 1 else 0
  }

  lemma {:induction false} EndsAppend(a: seq<Event>, b: seq<Event>)
    ensures Ends(a + b) == Ends(a) + Ends(b)
    decreases |b|
  {
    if b == [] {
      assert a + b == a;
    } else {
      var n := |b| - 1;
      assert (a + b)[..|a| + n] == a + b[..n];
      EndsAppend(a, b[..n]);
    }
  }

  lemma EndsOne(e: Event)
    ensures Ends([e]) == if e.ProviderEnd? then 1 else 0
  {
    assert [e][..0] == [];
  }

  lemma SectionEnds(p: Provider, last: bool)
    ensures Ends(Section(p, last)) == 1
  {
    var c := Classify(p.err);
    var start := [ProviderStart(p.name)];
    var block := if c.kind.KindBlocked? then [BlockedBy(p.name, Detector(c))] else [];
    var end := [ProviderEnd(p.name, Some(c.kind))];
    var tail := if last then [] else [Fallback(p.name, c.kind)];
    EndsOne(start[0]);
    EndsOne(BlockedBy(p.name, Detector(c)));
    EndsOne(end[0]);
    EndsOne(Fallback(p.name, c.kind));
    EndsAppend(start, block);
    EndsAppend(start + block, end);
    EndsAppend(start + block + end, tail);
  }

  lemma {:induction false} SectionsEnds(ps: seq<Provider>, n: nat)
    requires n <= |ps|
    ensures Ends(Sections(ps, n)) == |Enabled(ps[..n])|
  {
    if n > 0 {
      SectionsEnds(ps, n - 1);
      EnabledPush(ps, n - 1);
      SectionEnds(ps[n - 1], n == |ps|);
      EndsAppend(Sections(ps, n - 1), Section(ps[n - 1], n == |ps|));
      assert Sections(ps, n - 1) + [] == Sections(ps, n - 1);
    }
  }

  /** Attempts is the length of the provider chain and the number of ProviderEnd events. */
  lemma AttemptsAreEnds(ps: seq<Provider>, r: Response)
    requires Answers(ps, r)
    ensures r.diag.attempts == |r.diag.chain| == Ends(Trace(ps))
  {
    var k := Winner(ps);
    var body := [SearchStart] + Sections(ps, k);
    var won := if k < |ps| then Success(ps[k]) else [];
    EndsOne(SearchStart);
    EndsOne(SearchFinish);
    SectionsEnds(ps, k);
    EndsAppend([SearchStart], Sections(ps, k));
    if k < |ps| {
      EndsOne(won[0]);
      EndsOne(won[1]);
      EndsAppend([won[0]], [won[1]]);
      assert won == [won[0]] + [won[1]];
    } else {
      assert ps[..k] == ps;
    }
    EndsAppend(body, won);
    EndsAppend(body + won, [SearchFinish]);
  }

  /**
   Errors lines up with the chain, which leaves out only the provider that served; on exhaustion the
   chain is what EnabledProviders lists.
   */
  lemma ErrorsLineUp(ps: seq<Provider>, r: Response)
    requires Answers(ps, r)
    ensures |r.diag.errors| == |r.diag.chain| - if r.verdict.Served? then 1 else 0
    ensures forall i :: 0 <= i < |r.diag.errors| ==> r.diag.errors[i].provider == r.diag.chain[i]
    ensures !r.verdict.Served? ==> r.diag.chain == Names(Enabled(ps))
    ensures r.verdict.Served? <==> exists p :: p in ps && Serves(p)
  {
    if Winner(ps) < |ps| {
      assert ps[Winner(ps)] in ps;
    }
  }

  lemma {:induction false} EnabledEmpty(ps: seq<Provider>)
    ensures Enabled(ps) == [] <==> forall p :: p in ps ==> !p.enabled
  {
    if ps != [] {
      EnabledEmpty(ps[..|ps| - 1]);
      assert ps == ps[..|ps| - 1] + [ps[|ps| - 1]];
    }
  }

  /**
   FallbackUsed says only that the serving provider is not the first one listed: it differs from "another
   provider was tried before" exactly when all providers before it are disabled and there are some.
   */
  lemma FallbackFlag(ps: seq<Provider>, r: Response)
    requires Answers(ps, r) && r.verdict.Served?
    ensures var k := Winner(ps);
      r.fallbackUsed != (r.diag.attempts > 1) <==> k > 0 && forall p :: p in ps[..k] ==> !p.enabled
  {
    EnabledEmpty(ps[..Winner(ps)]);
  }
}
