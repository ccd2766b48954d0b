/** Selectors that heal themselves: the similarity search over a document and what Select learns from it. */
module AdaptiveParser {
  import opened Common
  import opened Text

  datatype Fingerprint = Fingerprint(tag: string, id: string, cls: string, textHash: string)

  /** A document node with the fingerprint and the CSS candidate computed from it. */
  datatype Node = Node(element: bool, fp: Fingerprint, css: string, children: seq<Node>)

  /** The scores are the source's weights in hundredths. */
  const THRESHOLD: nat := 55

  // ---- Specification ----

  predicate Agrees(a: string, b: string) {
    a != "" && a == b
  }

  function Score(cand: Fingerprint, ref: Fingerprint): nat {
    (if Agrees(cand.tag, ref.tag) then 35 else 0)
    + (if Agrees(cand.id, ref.id) then 35 else 0)
    + (if Agrees(cand.cls, ref.cls) then 20 else 0)
    + (if Agrees(cand.textHash, ref.textHash) then 10 else 0)
  }

  /** The highest score against any of the references, or 0 without references. */
  function Highest(cand: Fingerprint, refs: seq<Fingerprint>): (s: nat)
    ensures forall r :: r in refs ==> Score(cand, r) <= s
    ensures s > 0 ==> exists r :: r in refs && Score(cand, r) == s
  {
    if refs == [] then 0 else Max(Highest(cand, refs[..|refs| - 1]), Score(cand, refs[|refs| - 1]))
  }

  /** At least two of tag, id and class are present and equal. */
  predicate TwoAgree(a: Fingerprint, b: Fingerprint) {
    var tag, id, cls := Agrees(a.tag, b.tag), Agrees(a.id, b.id), Agrees(a.cls, b.cls);
    (tag && id) || (tag && cls) || (id && cls)
  }

  /** The threshold is met exactly when a single reference agrees on two of tag, id and class: text never decides. */
  lemma ThresholdMeansTwoAgree(cand: Fingerprint, refs: seq<Fingerprint>)
    ensures Highest(cand, refs) >= THRESHOLD <==> exists r :: r in refs && TwoAgree(cand, r)
  {
    forall r | r in refs ensures Score(cand, r) >= THRESHOLD <==> TwoAgree(cand, r) {
    }
  }

  /** Scores compare how many of tag and id agree, then the class, then the text; an absent part never agrees. */
  lemma ScoreOrder(a: Fingerprint, r: Fingerprint, b: Fingerprint, s: Fingerprint)
    ensures
      var tagA, idA := if a.tag != "" && a.tag == r.tag then 1 else 0, if a.id != "" && a.id == r.id then 1 else 0;
      var tagB, idB := if b.tag != "" && b.tag == s.tag then 1 else 0, if b.id != "" && b.id == s.id then 1 else 0;
      var clsA, clsB := a.cls != "" && a.cls == r.cls, b.cls != "" && b.cls == s.cls;
      var textA, textB := a.textHash != "" && a.textHash == r.textHash, b.textHash != "" && b.textHash == s.textHash;
      Score(a, r) < Score(b, s) <==>
        || tagA + idA < tagB + idB
        || (tagA + idA == tagB + idB && !clsA && clsB)
        || (tagA + idA == tagB + idB && clsA == clsB && !textA && textB)
  {
  }

  /** The nodes of a document in pre-order: a node before its children, the children from left to right. */
  function PreOrder(n: Node): (ns: seq<Node>)
    ensures |ns| > 0 && ns[0] == n
  {
    [n] + Forest(n.children)
  }

  function Forest(ns: seq<Node>): seq<Node> {
    if ns == [] then [] else Forest(ns[..|ns| - 1]) + PreOrder(ns[|ns| - 1])
  }

  /** The first tree comes first. */
  lemma {:induction false} ForestFirst(n: Node, rest: seq<Node>)
    ensures Forest([n] + rest) == PreOrder(n) + Forest(rest)
  {
    var all := [n] + rest;
    if rest == [] {
      assert all[..0] == [] && Forest([]) + PreOrder(n) == PreOrder(n) + Forest([]);
    } else {
      var k := |rest| - 1;
      assert all[..|all| - 1] == [n] + rest[..k];
      ForestFirst(n, rest[..k]);
    }
  }

  lemma ForestPush(before: seq<Node>, n: Node, i: nat)
    requires i < |n.children|
    ensures before + ([n] + Forest(n.children[..i])) + PreOrder(n.children[i])
      == before + ([n] + Forest(n.children[..i + 1]))
  {
    assert n.children[..i + 1][..i] == n.children[..i];
  }

  function NodeScore(n: Node, refs: seq<Fingerprint>): nat {
    if n.element then Highest(n.fp, refs) else 0
  }

  /** k is the first position with the highest score, which is positive; without one no node scores. */
  ghost predicate FirstMaximum(ns: seq<Node>, refs: seq<Fingerprint>, best: Option<nat>, score: nat) {
    && (forall j :: 0 <= j < |ns| ==> NodeScore(ns[j], refs) <= score)
    && (best.None? <==> score == 0)
    && (best.Some? ==>
          && best.value < |ns| && NodeScore(ns[best.value], refs) == score
          && forall j :: 0 <= j < best.value ==> NodeScore(ns[j], refs) < score)
  }

  lemma FirstMaximumIsUnique(ns: seq<Node>, refs: seq<Fingerprint>, b1: Option<nat>, s1: nat, b2: Option<nat>, s2: nat)
    requires FirstMaximum(ns, refs, b1, s1) && FirstMaximum(ns, refs, b2, s2)
    ensures b1 == b2 && s1 == s2
  {
    if b1.Some? && b2.Some? {
      assert NodeScore(ns[b1.value], refs) == s1 && NodeScore(ns[b2.value], refs) == s2;
    }
  }

  /** The first node that reaches the threshold with the highest score of all, if any does. */
  ghost predicate Healing(ns: seq<Node>, refs: seq<Fingerprint>, k: nat) {
    && k < |ns| && NodeScore(ns[k], refs) >= THRESHOLD
    && (forall j :: 0 <= j < |ns| ==> NodeScore(ns[j], refs) <= NodeScore(ns[k], refs))
    && (forall j :: 0 <= j < k ==> NodeScore(ns[j], refs) < NodeScore(ns[k], refs))
  }

  lemma HighestHeals(ns: seq<Node>, refs: seq<Fingerprint>, best: Option<nat>, score: nat)
    requires FirstMaximum(ns, refs, best, score)
    ensures best.Some? && score >= THRESHOLD ==> Healing(ns, refs, best.value)
    ensures best.None? || score < THRESHOLD ==> forall j :: 0 <= j < |ns| ==> NodeScore(ns[j], refs) < THRESHOLD
  {
  }

  /** The fingerprints kept after learning one more. */
  function Learned(prints: seq<Fingerprint>, fp: Fingerprint): seq<Fingerprint> {
    (if |prints| >= 8 then prints[1..] else prints) + [fp]
  }

  function LearnedAll(prints: seq<Fingerprint>, fps: seq<Fingerprint>): seq<Fingerprint> {
    if fps == [] then prints else Learned(LearnedAll(prints, fps[..|fps| - 1]), fps[|fps| - 1])
  }

  function LastOf(s: seq<Fingerprint>, n: nat): seq<Fingerprint> {
    s[|s| - Min(n, |s|)..]
  }

  /** However often a selector learns, it keeps the latest eight fingerprints (or as many as were loaded, if more). */
  lemma {:induction false} KeepsTheLatest(prints: seq<Fingerprint>, fps: seq<Fingerprint>)
    ensures LearnedAll(prints, fps) == LastOf(prints + fps, Max(8, |prints|))
  {
    if fps == [] {
      assert prints + fps == prints;
    } else {
      var n := |fps| - 1;
      KeepsTheLatest(prints, fps[..n]);
      assert prints + fps == prints + fps[..n] + [fps[n]];
    }
  }

  // ---- The similarity search ----

  method ScoreFingerprint(cand: Fingerprint, refs: seq<Fingerprint>) returns (best: nat)
    ensures best == Highest(cand, refs)
  {
    best := 0;
    var i := 0;
    while i < |refs|
      invariant 0 <= i <= |refs| && best == Highest(cand, refs[..i])
    {
      assert refs[..i + 1][..i] == refs[..i];
      var ref := refs[i];
      var s := 0;
      if cand.tag != "" && cand.tag == ref.tag {
        s := s + 35;
      }
      if cand.id != "" && cand.id == ref.id {
        s := s + 35;
      }
      if cand.cls != "" && cand.cls == ref.cls {
        s := s + 20;
      }
      if cand.textHash != "" && cand.textHash == ref.textHash {
        s := s + 10;
      }
      assert s == Score(cand, ref);
      if s > best {
        best := s;
      }
      i := i + 1;
    }
    assert refs[..i] == refs;
  }

  /** The variables findSimilar's closure updates; visited are the nodes it has been called on. */
  class Finder {
    const refs: seq<Fingerprint>
    var best: Option<nat>
    var score: nat
    var position: nat
    ghost var visited: seq<Node>

    ghost predicate Valid()
      reads this
    {
      position == |visited| && FirstMaximum(visited, refs, best, score)
    }

    constructor (refs: seq<Fingerprint>)
      ensures Valid() && visited == [] && this.refs == refs
    {
      this.refs := refs;
      best := None;
      score := 0;
      position := 0;
      visited := [];
    }

    method Visit(n: Node)
      requires Valid()
      modifies this
      ensures Valid() && visited == old(visited) + PreOrder(n)
      decreases n
    {
      Note(n);
      var i := 0;
      while i < |n.children|
        invariant 0 <= i <= |n.children| && Valid()
        invariant visited == old(visited) + ([n] + Forest(n.children[..i]))
      {
        ForestPush(old(visited), n, i);
        Visit(n.children[i]);
        i := i + 1;
      }
      assert n.children[..i] == n.children;
    }

    method Note(n: Node)
      requires Valid()
      modifies this
      ensures Valid() && visited == old(visited) + [n]
    {
      if n.element {
        var s := ScoreFingerprint(n.fp, refs);
        if s > score {
          score := s;
          best := Some(position);
        }
      }
      position := position + 1;
      visited := visited + [n];
    }
  }

  method FindSimilar(doc: Node, refs: seq<Fingerprint>) returns (best: Option<nat>, score: nat)
    ensures FirstMaximum(PreOrder(doc), refs, best, score)
  {
    if |refs| == 0 {
      return None, 0;
    }
    var finder := new Finder(refs);
    finder.Visit(doc);
    assert finder.visited == PreOrder(doc);
    return finder.best, finder.score;
  }

  // ---- Selectors ----

  datatype Selector = Selector(primary: string, prints: seq<Fingerprint>)

  datatype Answer = NoDocument | NotRegistered | BadSelector | Missing | Match(position: nat, healed: bool)

  /** The CSS engine: which selectors compile, and which positions of a document they match. */
  datatype Css = Css(compiles: string -> bool, matches: (string, Node, nat) -> bool)

  /** cascadia.Query: k is the first matching node below the root. */
  ghost predicate FirstMatch(css: Css, primary: string, doc: Node, k: nat) {
    && 1 <= k < |PreOrder(doc)| && css.matches(primary, doc, k)
    && forall j :: 1 <= j < k ==> !css.matches(primary, doc, j)
  }

  ghost predicate NoMatch(css: Css, primary: string, doc: Node) {
    forall j :: 1 <= j < |PreOrder(doc)| ==> !css.matches(primary, doc, j)
  }

  method Query(css: Css, primary: string, doc: Node) returns (r: Option<nat>)
    ensures r.Some? ==> FirstMatch(css, primary, doc, r.value)
    ensures r.None? ==> NoMatch(css, primary, doc)
  {
    var n := |PreOrder(doc)|;
    var k := 1;
    while k < n
      invariant 1 <= k <= n && forall j :: 1 <= j < k ==> !css.matches(primary, doc, j)
    {
      if css.matches(primary, doc, k) {
        return Some(k);
      }
      k := k + 1;
    }
    return None;
  }

  /** What Select answers for a registered selector, stated without saying how it searches. */
  ghost predicate Answers(css: Css, sel: Selector, doc: Node, a: Answer) {
    var ns := PreOrder(doc);
    match a
    case BadSelector => !css.compiles(sel.primary)
    case Match(k, false) => css.compiles(sel.primary) && FirstMatch(css, sel.primary, doc, k)
    case Match(k, true) => css.compiles(sel.primary) && NoMatch(css, sel.primary, doc) && Healing(ns, sel.prints, k)
    case Missing =>
      && css.compiles(sel.primary) && NoMatch(css, sel.primary, doc)
      && forall j :: 0 <= j < |ns| ==> NodeScore(ns[j], sel.prints) < THRESHOLD
    case _ => false
  }

  /** The selector as Select leaves it. */
  function After(sel: Selector, doc: Node, a: Answer): Selector {
    if a.Match? && a.position < |PreOrder(doc)| then
      var n := PreOrder(doc)[a.position];
      Selector(if a.healed && n.css != "" then n.css else sel.primary, Learned(sel.prints, n.fp))
    else
      sel
  }

  /** Select has one answer for every selector and document. */
  lemma AnswerIsUnique(css: Css, sel: Selector, doc: Node, a: Answer, b: Answer)
    requires Answers(css, sel, doc, a) && Answers(css, sel, doc, b)
    ensures a == b
  {
    var ns := PreOrder(doc);
    match (a, b)
    case (Match(j, true), Match(k, true)) =>
      assert NodeScore(ns[j], sel.prints) <= NodeScore(ns[k], sel.prints);
    case _ =>
  }

  class AdaptiveParser {
    const css: Css
    var selectors: map<string, Selector>

    constructor (css: Css)
      ensures this.css == css && selectors == map[]
    {
      this.css := css;
      selectors := map[];
    }

    method Register(name: string, primary: string) returns (ok: bool)
      modifies this
      ensures ok == (Trim(name) != "" && Trim(primary) != "" && css.compiles(Trim(primary)))
      ensures selectors == if ok then old(selectors)[Trim(name) := Selector(Trim(primary), [])] else old(selectors)
    {
      var n, c := Trim(name), Trim(primary);
      if n == "" || c == "" {
        return false;
      }
      if !css.compiles(c) {
        return false;
      }
      selectors := selectors[n := Selector(c, [])];
      return true;
    }

    method Learn(name: string, n: Node)
      modifies this
      ensures name !in old(selectors) ==> selectors == old(selectors)
      ensures name in old(selectors) ==>
        var sel := old(selectors)[name];
        selectors == old(selectors)[name := sel.(prints := Learned(sel.prints, n.fp))]
    {
      if name !in selectors {
        return;
      }
      var sel := selectors[name];
      if |sel.prints| >= 8 {
        sel := sel.(prints := sel.prints[1..]);
      }
      selectors := selectors[name := sel.(prints := sel.prints + [n.fp])];
    }

    method Select(doc: Option<Node>, name: string) returns (a: Answer)
      modifies this
      ensures doc.None? ==> a == NoDocument && selectors == old(selectors)
      ensures doc.Some? && name !in old(selectors) ==> a == NotRegistered && selectors == old(selectors)
      ensures doc.Some? && name in old(selectors) ==>
        var sel := old(selectors)[name];
        Answers(css, sel, doc.value, a) && selectors == old(selectors)[name := After(sel, doc.value, a)]
    {
      if doc.None? {
        return NoDocument;
      }
      if name !in selectors {
        return NotRegistered;
      }
      var sel := selectors[name];
      if !css.compiles(sel.primary) {
        return BadSelector;
      }
      var ns := PreOrder(doc.value);
      var found := Query(css, sel.primary, doc.value);
      if found.Some? {
        Learn(name, ns[found.value]);
        return Match(found.value, false);
      }
      var node, score := FindSimilar(doc.value, sel.prints);
      HighestHeals(ns, sel.prints, node, score);
      if node.None? || score < THRESHOLD {
        return Missing;
      }
      var updated := ns[node.value].css;
      if updated != "" {
        selectors := selectors[name := sel.(primary := updated)];
      }
      Learn(name, ns[node.value]);
      return Match(node.value, true);
    }
  }

  // ---- Healing ----

  /** A reference agrees with some element on two of tag, id and class. */
  ghost predicate Recognizable(doc: Node, refs: seq<Fingerprint>) {
    exists n, r :: n in PreOrder(doc) && n.element && r in refs && TwoAgree(n.fp, r)
  }

  lemma ScoresWhenRecognized(doc: Node, refs: seq<Fingerprint>)
    ensures Recognizable(doc, refs) <==> exists n :: n in PreOrder(doc) && NodeScore(n, refs) >= THRESHOLD
  {
    forall n | n in PreOrder(doc) && NodeScore(n, refs) >= THRESHOLD ensures Recognizable(doc, refs) {
      ThresholdMeansTwoAgree(n.fp, refs);
      var r :| r in refs && TwoAgree(n.fp, r);
    }
    if n, r :| n in PreOrder(doc) && n.element && r in refs && TwoAgree(n.fp, r) {
      ThresholdMeansTwoAgree(n.fp, refs);
      assert NodeScore(n, refs) >= THRESHOLD;
    }
  }

  /** Where the stored selector matches nothing, Select answers exactly for the recognizable documents. */
  lemma HealsIffRecognizable(css: Css, sel: Selector, doc: Node, a: Answer)
    requires Answers(css, sel, doc, a) && NoMatch(css, sel.primary, doc) && css.compiles(sel.primary)
    ensures a.Match? <==> Recognizable(doc, sel.prints)
    ensures a.Match? ==> a.healed
  {
    var ns := PreOrder(doc);
    ScoresWhenRecognized(doc, sel.prints);
    if a.Match? {
      assert ns[a.position] in ns;
    }
  }

  lemma LearnsItself(prints: seq<Fingerprint>, fp: Fingerprint)
    requires Highest(fp, prints) >= THRESHOLD
    ensures Highest(fp, Learned(prints, fp)) >= THRESHOLD
  {
    ThresholdMeansTwoAgree(fp, prints);
    var kept := Learned(prints, fp);
    assert kept[|kept| - 1] == fp;
    assert TwoAgree(fp, fp);
    ThresholdMeansTwoAgree(fp, kept);
  }

  /**
   A healed selector keeps working on the document that healed it, whether or not the selector it switched
   to matches there, unless that selector does not compile: then every later Select is an error.
   */
  lemma HealedIsFoundAgain(css: Css, sel: Selector, doc: Node, a: Answer, b: Answer)
    requires Answers(css, sel, doc, a) && a.Match? && a.healed
    requires Answers(css, After(sel, doc, a), doc, b)
    ensures b.Match? || b.BadSelector?
    ensures var n := PreOrder(doc)[a.position];
      b.BadSelector? <==> n.css != "" && !css.compiles(n.css)
  {
    var ns := PreOrder(doc);
    var n := ns[a.position];
    LearnsItself(sel.prints, n.fp);
    assert NodeScore(n, After(sel, doc, a).prints) >= THRESHOLD;
  }

  /** A selector that does not compile is never left again: no answer changes it. */
  lemma BadSelectorIsStuck(css: Css, sel: Selector, doc: Node, a: Answer)
    requires Answers(css, sel, doc, a)
    ensures !css.compiles(sel.primary) <==> a.BadSelector?
    ensures a.BadSelector? || a.Missing? ==> After(sel, doc, a) == sel
  {
  }

  /** Successive Selects of one selector on one document. */
  ghost predicate Repeats(css: Css, doc: Node, sels: seq<Selector>, answers: seq<Answer>) {
    && |sels| == |answers| + 1
    && forall i: nat :: i < |answers| ==> Follows(css, doc, sels, answers, i)
  }

  ghost predicate Follows(css: Css, doc: Node, sels: seq<Selector>, answers: seq<Answer>, i: nat)
    requires i < |answers| && |sels| == |answers| + 1
  {
    Answers(css, sels[i], doc, answers[i]) && sels[i + 1] == After(sels[i], doc, answers[i])
  }

  /** A selector that matched without healing is unchanged, so it matches again. */
  lemma MatchIsFoundAgain(css: Css, sel: Selector, doc: Node, a: Answer, b: Answer)
    requires Answers(css, sel, doc, a) && a.Match?
    requires Answers(css, After(sel, doc, a), doc, b)
    ensures b.Match? || b.BadSelector?
  {
    if a.healed {
      HealedIsFoundAgain(css, sel, doc, a, b);
    }
  }

  /**
   Once a Select has found an element in a document no later Select on that document comes back empty,
   however often the fingerprints are replaced; it can only fail on a healed selector that does not compile.
   */
  lemma {:induction false} NeverMissedAgain(
    css: Css, doc: Node, sels: seq<Selector>, answers: seq<Answer>, i: nat, j: nat)
    requires Repeats(css, doc, sels, answers) && i <= j < |answers| && answers[i].Match?
    ensures answers[j].Match? || answers[j].BadSelector?
    decreases j - i
  {
    if i < j {
      NeverMissedAgain(css, doc, sels, answers, i, j - 1);
      assert Follows(css, doc, sels, answers, j - 1) && Follows(css, doc, sels, answers, j);
      if answers[j - 1].Match? {
        MatchIsFoundAgain(css, sels[j - 1], doc, answers[j - 1], answers[j]);
      } else {
        BadSelectorIsStuck(css, sels[j - 1], doc, answers[j - 1]);
      }
    }
  }
}
