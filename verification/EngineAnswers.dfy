/** The engine's answer read off its trace and its providers' errors, case by case. */
module EngineAnswers {
  import opened Common
  import opened E = Engine

  // ---- What a trace reports ----

  /** Providers started and ended, in order, and the detector of the latest block. */
  datatype Tally = Tally(started: seq<string>, ended: seq<(string, Option<ErrorKind>)>, block: Option<string>)

  function Note(t: Tally, e: Event): Tally {
    match e
    case ProviderStart(n) => t.(started := t.started + [n])
    case ProviderEnd(n, failure) => t.(ended := t.ended + [(n, failure)])
    case BlockedBy(_, d) => t.(block := Some(d))
    case _ => t
  }

  function Tallied(t: Tally, events: seq<Event>): Tally {
    if events == [] then t else Note(Tallied(t, events[..|events| - 1]), events[|events| - 1])
  }

  lemma {:induction false} TalliedAppend(t: Tally, a: seq<Event>, b: seq<Event>)
    ensures Tallied(t, a + b) == Tallied(Tallied(t, a), b)
    decreases |b|
  {
    if b == [] {
      assert a + b == a;
    } else {
      var n := |b| - 1;
      assert (a + b)[..|a| + n] == a + b[..n];
      TalliedAppend(t, a, b[..n]);
    }
  }

  lemma TalliedOne(t: Tally, e: Event)
    ensures Tallied(t, [e]) == Note(t, e)
  {
    assert [e][..0] == [];
  }

  /** Failures as the ends of their providers. */
  function Reported(fs: seq<Failure>): seq<(string, Option<ErrorKind>)> {
    if fs == [] then [] else
    Reported(fs[..|fs| - 1]) + [(fs[|fs| - 1].provider, Some(fs[|fs| - 1].kind))]
  }

  lemma SectionTally(t: Tally, p: Provider, last: bool)
    ensures Tallied(t, Section(p, last)) == Tally(t.started + [p.name],
      t.ended + [(p.name, Some(FailureOf(p).kind))], BlockAfter(p, t.block))
  {
    var c := Classify(p.err);
    var start := [ProviderStart(p.name)];
    var block := if c.kind.KindBlocked? then [BlockedBy(p.name, Detector(c))] else [];
    var end := [ProviderEnd(p.name, Some(c.kind))];
    var t1 := t.(started := t.started + [p.name]);
    var t2 := t1.(block := BlockAfter(p, t.block));
    TalliedOne(t, start[0]);
    TalliedAppend(t, start, block);
    TalliedOne(t1, BlockedBy(p.name, Detector(c)));
    TalliedAppend(t, start + block, end);
    TalliedOne(t2, end[0]);
    TalliedAppend(t, start + block + end, if last then [] else [Fallback(p.name, c.kind)]);
    TalliedOne(Note(t2, end[0]), Fallback(p.name, c.kind));
  }

  /** What one more provider that failed adds to the lists. */
  lemma OneMore(es: seq<Provider>, p: Provider)
    ensures Names(es + [p]) == Names(es) + [p.name]
    ensures Reported(Failures(es + [p])) == Reported(Failures(es)) + [(p.name, Some(FailureOf(p).kind))]
    ensures LastBlock(es + [p]) == BlockAfter(p, LastBlock(es))
  {
    assert (es + [p])[..|es|] == es;
    assert Failures(es + [p])[..|es|] == Failures(es);
  }

  lemma {:induction false} SectionsTally(ps: seq<Provider>, n: nat)
    requires n <= |ps|
    ensures var es := Enabled(ps[..n]);
      Tallied(Tally([], [], None), Sections(ps, n)) == Tally(Names(es), Reported(Failures(es)), LastBlock(es))
  {
    if n > 0 {
      SectionsTally(ps, n - 1);
      EnabledPush(ps, n - 1);
      var es, p := Enabled(ps[..n - 1]), ps[n - 1];
      if p.enabled {
        SectionTally(Tallied(Tally([], [], None), Sections(ps, n - 1)), p, n == |ps|);
        TalliedAppend(Tally([], [], None), Sections(ps, n - 1), Section(p, n == |ps|));
        OneMore(es, p);
      } else {
        assert Sections(ps, n - 1) + [] == Sections(ps, n - 1);
        assert es + [] == es;
      }
    }
  }

  /**
   The answer can be read off the trace: the providers it starts are the chain, those it ends are the failures
   in order and then the one that served, and the block is the one reported last.
   */
  lemma TraceTellsAnswer(ps: seq<Provider>, r: Response)
    requires Answers(ps, r)
    ensures Tallied(Tally([], [], None), Trace(ps)) == Tally(r.diag.chain,
      Reported(r.diag.errors) + (if r.verdict.Served? then [(r.provider, None)] else []), r.diag.block)
  {
    var k, t0 := Winner(ps), Tally([], [], None);
    var body := [SearchStart] + Sections(ps, k);
    TalliedOne(t0, SearchStart);
    TalliedAppend(t0, [SearchStart], Sections(ps, k));
    SectionsTally(ps, k);
    var t := Tallied(t0, body);
    if k < |ps| {
      var p, es := ps[k], Enabled(ps[..k]);
      TalliedOne(t, ProviderStart(p.name));
      TalliedAppend(t, [ProviderStart(p.name)], [ProviderEnd(p.name, None)]);
      TalliedOne(Note(t, ProviderStart(p.name)), ProviderEnd(p.name, None));
      assert Success(p) == [ProviderStart(p.name)] + [ProviderEnd(p.name, None)];
      assert Names(es + [p]) == Names(es) + [p.name];
      TalliedAppend(t0, body, Success(p));
      TalliedAppend(t0, body + Success(p), [SearchFinish]);
      TalliedOne(Tallied(t0, body + Success(p)), SearchFinish);
    } else {
      assert ps[..k] == ps;
      assert body + [] == body;
      assert Reported(r.diag.errors) + [] == Reported(r.diag.errors);
      TalliedAppend(t0, body, [SearchFinish]);
      TalliedOne(t, SearchFinish);
    }
  }

  // ---- Which provider serves ----

  /** No provider up to a position is enabled, free of error and has results. */
  ghost predicate Unserved(ps: seq<Provider>, n: nat) {
    forall j :: 0 <= j < n && j < |ps| ==> !(ps[j].enabled && ps[j].err.None? && ps[j].results != [])
  }

  lemma UnservedIsTried(ps: seq<Provider>, i: nat)
    requires i < |ps| && Unserved(ps, i + 1)
    ensures i < Winner(ps)
  {
  }

  lemma {:induction false} EnabledIs(ps: seq<Provider>)
    ensures forall p :: p in Enabled(ps) <==> p in ps && p.enabled
  {
    if ps != [] {
      EnabledIs(ps[..|ps| - 1]);
      assert ps == ps[..|ps| - 1] + [ps[|ps| - 1]];
    }
  }

  /** The first enabled provider that answers without an error and with results serves the search. */
  lemma ServedBy(ps: seq<Provider>, r: Response, i: nat)
    requires Answers(ps, r) && i < |ps| && Unserved(ps, i)
    requires ps[i].enabled && ps[i].err == None && ps[i].results != []
    ensures r.verdict == Served && r.results == ps[i].results && r.provider == ps[i].name
    ensures r.fallbackUsed <==> i > 0
  {
  }

  /** Without such a provider the search fails, as exhausted unless every provider is disabled. */
  lemma ServedByNone(ps: seq<Provider>, r: Response)
    requires Answers(ps, r) && Unserved(ps, |ps|)
    ensures r.results == []
    ensures r.verdict == if exists p :: p in ps && p.enabled then AllExhausted else NoEnabledProviders
  {
    EnabledIs(ps);
    if Enabled(ps) != [] {
      assert Enabled(ps)[0] in ps && Enabled(ps)[0].enabled;
    }
  }

  // ---- What a failed provider leaves ----

  lemma {:induction false} EnabledPrefix(ps: seq<Provider>, i: nat, k: nat)
    requires i < k <= |ps| && ps[i].enabled
    ensures var n := |Enabled(ps[..i])|; n < |Enabled(ps[..k])| && Enabled(ps[..k])[n] == ps[i]
  {
    EnabledPush(ps, k - 1);
    if i < k - 1 {
      EnabledPrefix(ps, i, k - 1);
    }
  }

  /** A provider tried in vain is recorded in its place, with the kind that its error calls for. */
  lemma FailureIs(ps: seq<Provider>, r: Response, i: nat)
    requires Answers(ps, r) && i < |ps| && ps[i].enabled && Unserved(ps, i + 1)
    ensures var n := |Enabled(ps[..i])|;
      && n < |r.diag.errors| && n < |r.diag.chain|
      && r.diag.chain[n] == ps[i].name && r.diag.errors[n].provider == ps[i].name
      && (match ps[i].err
          case None => r.diag.errors[n].kind == KindNoResults
          case Some(NoResultsErr) => r.diag.errors[n].kind == KindNoResults
          case Some(BlockedErr(_)) => r.diag.errors[n].kind == KindBlocked
          case Some(NoVQDErr) => r.diag.errors[n].kind == KindParse
          case Some(UnexpectedBodyErr) => r.diag.errors[n].kind == KindParse
          case Some(Structured(kind, _)) => r.diag.errors[n].kind == kind
          case Some(OtherErr) => r.diag.errors[n].kind == KindProviderUnavailable)
  {
    UnservedIsTried(ps, i);
    assert ps[..|ps|] == ps;
    EnabledPrefix(ps, i, Winner(ps));
  }

  /** The error of a provider that was blocked, itself or as a structured error says. */
  predicate Blocked(p: Provider) {
    p.err.Some? && (p.err.value.BlockedErr? || (p.err.value.Structured? && p.err.value.kind == KindBlocked))
  }

  predicate NoBlock(ps: seq<Provider>, from: nat, to: nat) {
    forall j :: from <= j < to && j < |ps| && ps[j].enabled ==> !Blocked(ps[j])
  }

  lemma BlockStays(p: Provider, before: Option<string>)
    requires !Blocked(p)
    ensures BlockAfter(p, before) == before
  {
  }

  lemma {:induction false} LastBlockIs(ps: seq<Provider>, i: nat, k: nat)
    requires i <= k <= |ps| && NoBlock(ps, i, k)
    ensures LastBlock(Enabled(ps[..k])) == LastBlock(Enabled(ps[..i]))
  {
    if i < k {
      LastBlockIs(ps, i, k - 1);
      var es, p := Enabled(ps[..k - 1]), ps[k - 1];
      EnabledPush(ps, k - 1);
      if p.enabled {
        OneMore(es, p);
        BlockStays(p, LastBlock(es));
      } else {
        assert es + [] == es;
      }
    }
  }

  /** The block reported is the last tried provider's that was blocked, by its detector or as "blocked". */
  lemma BlockIs(ps: seq<Provider>, r: Response, i: nat, k: nat)
    requires Answers(ps, r) && i < k <= |ps| && Unserved(ps, k) && (k < |ps| ==> !Unserved(ps, k + 1))
    requires ps[i].enabled && Blocked(ps[i]) && NoBlock(ps, i + 1, k)
    ensures match ps[i].err.value
      case BlockedErr(d) => r.diag.block == Some(if d == "" then "blocked" else d)
      case Structured(_, d) => r.diag.block == Some(if d == "" then "blocked" else d)
  {
    assert Winner(ps) == k;
    assert ps[..|ps|] == ps;
    LastBlockIs(ps, i + 1, k);
    EnabledPush(ps, i);
    OneMore(Enabled(ps[..i]), ps[i]);
  }

  lemma NoBlockIs(ps: seq<Provider>, r: Response)
    requires Answers(ps, r) && NoBlock(ps, 0, Winner(ps))
    ensures r.diag.block == None
  {
    assert ps[..|ps|] == ps;
    LastBlockIs(ps, 0, Winner(ps));
    assert ps[..0] == [];
  }

  /** Events that follow one another in a trace. */
  ghost predicate Within(part: seq<Event>, events: seq<Event>) {
    exists at :: 0 <= at <= |events| - |part| && events[at..][..|part|] == part
  }

  lemma Inside(before: seq<Event>, part: seq<Event>, after: seq<Event>)
    ensures Within(part, before + part + after)
  {
    var all := before + part + after;
    assert all[|before|..][..|part|] == part;
  }

  lemma Wider(part: seq<Event>, events: seq<Event>, before: seq<Event>, after: seq<Event>)
    requires Within(part, events)
    ensures Within(part, before + events + after)
  {
    var at :| 0 <= at <= |events| - |part| && events[at..][..|part|] == part;
    var all := before + events + after;
    assert all[|before| + at..][..|part|] == part;
  }

  lemma {:induction false} SectionWithin(ps: seq<Provider>, i: nat, k: nat)
    requires i < k <= |ps| && ps[i].enabled
    ensures Within(Section(ps[i], i + 1 == |ps|), Sections(ps, k))
  {
    var rest := if ps[k - 1].enabled then Section(ps[k - 1], k == |ps|) else [];
    if i < k - 1 {
      SectionWithin(ps, i, k - 1);
      Wider(Section(ps[i], i + 1 == |ps|), Sections(ps, k - 1), [], rest);
      assert [] + Sections(ps, k - 1) == Sections(ps, k - 1);
    } else {
      Inside(Sections(ps, i), rest, []);
      assert Sections(ps, k) + [] == Sections(ps, k);
    }
  }

  /**
   A provider tried in vain is started, reported as blocked if it was, ended with the kind that its error calls
   for and fallen back from unless it is the last one listed.
   */
  lemma EventsAre(ps: seq<Provider>, i: nat)
    requires i < |ps| && ps[i].enabled && Unserved(ps, i + 1)
    ensures
      var n := ps[i].name;
      var kind := match ps[i].err
        case None => KindNoResults
        case Some(NoResultsErr) => KindNoResults
        case Some(BlockedErr(_)) => KindBlocked
        case Some(NoVQDErr) => KindParse
        case Some(UnexpectedBodyErr) => KindParse
        case Some(Structured(own, _)) => own
        case Some(OtherErr) => KindProviderUnavailable;
      var block := match ps[i].err
        case Some(BlockedErr(d)) => [BlockedBy(n, if d == "" then "blocked" else d)]
        case Some(Structured(KindBlocked, d)) => [BlockedBy(n, if d == "" then "blocked" else d)]
        case _ => [];
      var fallback := if i + 1 == |ps| then [] else [Fallback(n, kind)];
      Within([ProviderStart(n)] + block + [ProviderEnd(n, Some(kind))] + fallback, Trace(ps))
  {
    UnservedIsTried(ps, i);
    var k := Winner(ps);
    SectionWithin(ps, i, k);
    var tail := (if k < |ps| then Success(ps[k]) else []) + [SearchFinish];
    Wider(Section(ps[i], i + 1 == |ps|), Sections(ps, k), [SearchStart], tail);
    assert [SearchStart] + Sections(ps, k) + tail == Trace(ps);
  }
}
