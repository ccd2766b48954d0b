/** The proxy pool: health tracking, rotation and the weight total it maintains. */
module ProxyPool {
  import opened Common
  import W = WeightedPick

  datatype Strategy = RoundRobin | Random | Weighted

  datatype Stat = Stat(url: string, requests: nat, failures: nat, consecutiveFails: nat, inCooldown: bool)

  class ProxyEntry {
    const url: string
    var weight: int
    var consecutiveFails: nat
    var lastFail: Option<int>  // None where the source has the zero time
    var requests: nat
    var failures: nat

    constructor (url: string)
      ensures Unused(this, url)
    {
      this.url := url;
      weight, consecutiveFails, lastFail, requests, failures := 1, 0, None, 0, 0;
    }
  }

  /** rand.Intn(n), of which roll is the random part. */
  function Intn(roll: nat, n: int): (r: nat)
    requires n > 0
    ensures r < n && (roll < n ==> r == roll)
  {
    roll % n
  }

  class Pool {
    var entries: seq<ProxyEntry>
    var strategy: Strategy
    var cooldown: int
    var maxFails: int
    var rrIndex: nat
    var total: int

    ghost function Weights(): (ws: seq<int>)
      reads this, entries
      ensures |ws| == |entries|
    {
      WeightsOf(entries)
    }

    /** total is the sum of the weights, and no entry is listed twice. */
    ghost predicate Valid()
      reads this, entries
    {
      && total == W.Sum(Weights())
      && forall i, j :: 0 <= i < j < |entries| ==> entries[i] != entries[j]
    }

    constructor (urls: seq<string>, strategy: Strategy)
      ensures Valid() && fresh(entries)
      ensures |entries| == |urls| && total == |urls| && this.strategy == strategy
      ensures cooldown == 60_000_000_000 && maxFails == 3 && rrIndex == 0
      ensures forall i :: 0 <= i < |urls| ==> Unused(entries[i], urls[i])
    {
      entries := [];
      this.strategy := strategy;
      cooldown, maxFails := 60_000_000_000, 3;
      rrIndex, total := 0, 0;
      new;
      var i := 0;
      while i < |urls|
        invariant 0 <= i <= |urls| && fresh(entries) && this.strategy == strategy
        invariant cooldown == 60_000_000_000 && maxFails == 3 && rrIndex == 0
        invariant |entries| == i == total
        invariant forall j :: 0 <= j < i ==> Unused(entries[j], urls[j])
        invariant forall j, k :: 0 <= j < k < i ==> entries[j] != entries[k]
      {
        var e := new ProxyEntry(urls[i]);
        entries := entries + [e];
        total := total + 1;
        i := i + 1;
      }
      SumOfOnes(Weights());
    }

    /** NewProxyPool: null for its error, when some URL does not parse. */
    static method Create(urls: seq<string>, strategy: Strategy, parses: string -> bool) returns (p: Pool?)
      ensures p == null <==> exists u :: u in urls && !parses(u)
      ensures p != null ==> fresh(p) && p.Valid() && |p.entries| == |urls| && p.strategy == strategy
      ensures p != null ==> p.cooldown == 60_000_000_000 && p.maxFails == 3 && p.rrIndex == 0
      ensures p != null ==> forall i :: 0 <= i < |urls| ==> Unused(p.entries[i], urls[i])
    {
      var i := 0;
      while i < |urls|
        invariant 0 <= i <= |urls| && forall j :: 0 <= j < i ==> parses(urls[j])
      {
        if !parses(urls[i]) {
          return null;
        }
        i := i + 1;
      }
      p := new Pool(urls, strategy);
    }

    /** Only the first entry with this URL changes, and the total with it. */
    method SetWeight(proxyURL: string, weight: int)
      requires Valid()
      modifies this`total, entries
      ensures Valid()
      ensures var k := FirstWith(entries, proxyURL);
        Weights() == if k < |entries| then old(Weights())[k := weight] else old(Weights())
    {
      var i := 0;
      while i < |entries|
        invariant 0 <= i <= |entries|
        invariant forall j :: 0 <= j < i ==> entries[j].url != proxyURL
      {
        var e := entries[i];
        if e.url == proxyURL {
          FirstWithIs(entries, proxyURL, i);
          W.SumUpdate(Weights(), i, weight);
          ghost var before := Weights();
          total := total + (weight - e.weight);
          e.weight := weight;
          assert Weights() == before[i := weight];
          return;
        }
        i := i + 1;
      }
      FirstWithIs(entries, proxyURL, i);
    }

    /** Usable entries, in order. */
    ghost function AvailableAt(now: int): seq<ProxyEntry>
      reads this, entries
    {
      UsableOf(entries, maxFails, cooldown, now)
    }

    method Available(now: int) returns (avail: seq<ProxyEntry>)
      ensures avail == AvailableAt(now)
      ensures forall e :: e in avail <==> e in entries && !Cooling(e, maxFails, cooldown, now)
    {
      avail := [];
      var i := 0;
      while i < |entries|
        invariant 0 <= i <= |entries|
        invariant avail == UsableOf(entries[..i], maxFails, cooldown, now)
      {
        var e := entries[i];
        assert entries[..i + 1][..i] == entries[..i];
        if e.consecutiveFails < maxFails || e.lastFail.None? || now - e.lastFail.value > cooldown {
          avail := avail + [e];
        }
        i := i + 1;
      }
      assert entries[..i] == entries;
    }

    /**
     Nil exactly when every entry is in cooldown, otherwise an available entry: the next one in turn, or
     the one the draw selects. A negative sum of the available weights makes rand.Intn panic instead.
     */
    method Next(now: int, roll: nat) returns (e: ProxyEntry?, panics: bool)
      modifies this`rrIndex
      ensures panics == (AvailableAt(now) != [] && strategy.Weighted? && W.Sum(WeightsOf(AvailableAt(now))) < 0)
      ensures !panics ==> (e == null <==> AvailableAt(now) == [])
      ensures !panics && e != null ==> e in AvailableAt(now)
      ensures e != null && strategy.RoundRobin? ==>
        e == AvailableAt(now)[old(rrIndex) % |AvailableAt(now)|] && rrIndex == old(rrIndex) + 1
      ensures e != null && strategy.Random? ==> e == AvailableAt(now)[Intn(roll, |AvailableAt(now)|)]
      ensures !panics && e != null && strategy.Weighted? && W.Sum(WeightsOf(AvailableAt(now))) > 0 ==>
        SelectedBy(AvailableAt(now), roll, e)
      ensures e == null || !strategy.RoundRobin? ==> rrIndex == old(rrIndex)
    {
      panics := false;
      ghost var usable := AvailableAt(now);
      ghost var weights := WeightsOf(usable);
      var avail := Available(now);
      assert WeightsOf(avail) == weights;
      if |avail| == 0 {
        return null, false;
      }
      match strategy {
        case Random => e := avail[Intn(roll, |avail|)];
        case Weighted => e, panics := PickByWeight(avail, roll);
        case RoundRobin =>
          e := avail[rrIndex % |avail|];
          rrIndex := rrIndex + 1;
      }
    }

    /** weightedPick; the fallback return after its loop is never reached. */
    method PickByWeight(avail: seq<ProxyEntry>, roll: nat) returns (e: ProxyEntry?, panics: bool)
      requires avail != []
      ensures panics == (W.Sum(WeightsOf(avail)) < 0)
      ensures !panics ==> e != null && e in avail
      ensures W.Sum(WeightsOf(avail)) > 0 ==> SelectedBy(avail, roll, e)
      ensures W.Sum(WeightsOf(avail)) == 0 ==> e == avail[Intn(roll, |avail|)]
    {
      var weights: seq<int> := [];
      var sum := 0;
      var i := 0;
      while i < |avail|
        invariant 0 <= i <= |avail|
        invariant weights == WeightsOf(avail[..i]) && sum == W.Sum(weights)
      {
        weights := weights + [avail[i].weight];
        assert weights[..i] == WeightsOf(avail[..i]);
        assert weights == WeightsOf(avail[..i + 1]);
        sum := sum + avail[i].weight;
        i := i + 1;
      }
      assert avail[..i] == avail;
      if sum == 0 {
        return avail[Intn(roll, |avail|)], false;
      }
      if sum < 0 {
        return null, true;
      }
      var k, fell := W.Choose(weights, Intn(roll, sum));
      assert !fell;
      return avail[k], false;
    }

    method MarkSuccess(e: ProxyEntry?)
      modifies if e == null then {} else {e}
      ensures e != null ==> e.consecutiveFails == 0 && e.requests == old(e.requests) + 1
      ensures e != null ==> e.failures == old(e.failures) && e.weight == old(e.weight) && e.lastFail == old(e.lastFail)
    {
      if e != null {
        e.consecutiveFails := 0;
        e.requests := e.requests + 1;
      }
    }

    method MarkFailed(e: ProxyEntry?, now: int)
      modifies if e == null then {} else {e}
      ensures e != null ==> e.consecutiveFails == old(e.consecutiveFails) + 1 && e.lastFail == Some(now)
      ensures e != null ==> e.requests == old(e.requests) + 1 && e.failures == old(e.failures) + 1
      ensures e != null ==> e.weight == old(e.weight)
    {
      if e != null {
        e.consecutiveFails := e.consecutiveFails + 1;
        e.lastFail := Some(now);
        e.requests := e.requests + 1;
        e.failures := e.failures + 1;
      }
    }

    /** The reported cooldown flag is exactly what keeps an entry from being chosen. */
    method Stats(now: int) returns (stats: seq<Stat>)
      ensures |stats| == |entries|
      ensures forall i :: 0 <= i < |entries| ==> stats[i] == StatOf(entries[i], maxFails, cooldown, now)
    {
      stats := [];
      var i := 0;
      while i < |entries|
        invariant 0 <= i <= |entries| && |stats| == i
        invariant forall j :: 0 <= j < i ==> stats[j] == StatOf(entries[j], maxFails, cooldown, now)
      {
        var e := entries[i];
        var cooling := e.consecutiveFails >= maxFails && e.lastFail.Some? && now - e.lastFail.value <= cooldown;
        stats := stats + [Stat(e.url, e.requests, e.failures, e.consecutiveFails, cooling)];
        i := i + 1;
      }
    }
  }

  ghost function WeightsOf(es: seq<ProxyEntry>): (ws: seq<int>)
    reads es
    ensures |ws| == |es|
  {
    seq(|es|, i requires 0 <= i < |es| reads es => es[i].weight)
  }

  /** An entry as it is created. */
  ghost predicate Unused(e: ProxyEntry, url: string)
    reads e
  {
    && e.url == url && e.weight == 1 && e.consecutiveFails == 0 && e.lastFail == None
    && e.requests == 0 && e.failures == 0
  }

  /** An entry out of use: its latest failures reach the limit and the last of them is within the cooldown. */
  ghost predicate Cooling(e: ProxyEntry, maxFails: int, cooldown: int, now: int)
    reads e
  {
    e.consecutiveFails >= maxFails && e.lastFail.Some? && now <= e.lastFail.value + cooldown
  }

  /** The usable entries keep their order. */
  lemma UsableInOrder(es: seq<ProxyEntry>, e: ProxyEntry, maxFails: int, cooldown: int, now: int)
    ensures UsableOf(es + [e], maxFails, cooldown, now)
      == UsableOf(es, maxFails, cooldown, now) + if Cooling(e, maxFails, cooldown, now) then [] else [e]
  {
    assert (es + [e])[..|es|] == es;
  }

  ghost predicate Usable(e: ProxyEntry, maxFails: int, cooldown: int, now: int)
    reads e
  {
    e.consecutiveFails < maxFails || e.lastFail.None? || now - e.lastFail.value > cooldown
  }

  /** e is the entry that the weighted draw selects. */
  ghost predicate SelectedBy(es: seq<ProxyEntry>, roll: nat, e: ProxyEntry?)
    requires W.Sum(WeightsOf(es)) > 0
    reads es
  {
    exists k :: 0 <= k < |es| && es[k] == e && W.Selects(WeightsOf(es), Intn(roll, W.Sum(WeightsOf(es))), k)
  }

  ghost function StatOf(e: ProxyEntry, maxFails: int, cooldown: int, now: int): Stat
    reads e
  {
    Stat(e.url, e.requests, e.failures, e.consecutiveFails, !Usable(e, maxFails, cooldown, now))
  }

  ghost function UsableOf(es: seq<ProxyEntry>, maxFails: int, cooldown: int, now: int): (avail: seq<ProxyEntry>)
    reads es
    ensures forall e :: e in avail ==> e in es && Usable(e, maxFails, cooldown, now)
    ensures forall e :: e in es && Usable(e, maxFails, cooldown, now) ==> e in avail
  {
    if es == [] then [] else
    var last := es[|es| - 1];
    UsableOf(es[..|es| - 1], maxFails, cooldown, now) + if Usable(last, maxFails, cooldown, now) then [last] else []
  }

  lemma {:induction false} SumOfOnes(ws: seq<int>)
    requires forall i :: 0 <= i < |ws| ==> ws[i] == 1
    ensures W.Sum(ws) == |ws|
  {
    if ws != [] {
      SumOfOnes(ws[..|ws| - 1]);
    }
  }

  /** The position of the first entry with this URL, or the length when there is none. */
  function FirstWith(es: seq<ProxyEntry>, url: string): (k: nat)
    ensures k <= |es|
  {
    if es == [] || es[0].url == url then 0 else 1 + FirstWith(es[1..], url)
  }

  lemma {:induction false} FirstWithIs(es: seq<ProxyEntry>, url: string, i: nat)
    requires i <= |es| && (forall j :: 0 <= j < i ==> es[j].url != url) && (i < |es| ==> es[i].url == url)
    ensures FirstWith(es, url) == i
  {
    if i > 0 {
      FirstWithIs(es[1..], url, i - 1);
    }
  }
}
