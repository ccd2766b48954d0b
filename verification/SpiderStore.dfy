/** The parts of a Spider that outlive one Run: its seen set, its host policy and the checkpoint. */
module SpiderStore {
  import opened Common
  import opened SpiderModel
  import DomainPacing
  import Text

  /** The defaults NewSpider fills in, or None for its errors. */
  function WithDefaults(hasFetcher: bool, writerOpens: bool, raw: Config): (r: Option<Config>)
    ensures r.None? <==> !hasFetcher || raw.startURLs == [] || !writerOpens
    ensures r.Some? ==> r.value.Valid()
    ensures r.Some? && raw.Valid() ==> r.value == raw
    ensures r.Some? && raw.concurrency <= 0 ==> r.value.concurrency == 4
    ensures r.Some? && raw.maxPages <= 0 ==> r.value.maxPages == 200
    ensures r.Some? && raw.maxDepth <= 0 ==> r.value.maxDepth == 4
    ensures r.Some? && raw.domainMinInterval <= 0 ==> r.value.domainMinInterval == 350_000_000
  {
    if !hasFetcher then None else
    var cfg := raw.(concurrency := if raw.concurrency <= 0 then 4 else raw.concurrency,
                    maxPages := if raw.maxPages <= 0 then 200 else raw.maxPages,
                    maxDepth := if raw.maxDepth <= 0 then 4 else raw.maxDepth,
                    domainMinInterval := if raw.domainMinInterval <= 0 then 350_000_000 else raw.domainMinInterval);
    if raw.startURLs == [] || !writerOpens then None else Some(cfg)
  }

  ghost function RestoredKeys(urls: seq<string>): set<string> {
    set u | u in urls :: Key(u)
  }

  lemma RestoredKeysPush(urls: seq<string>, u: string)
    ensures RestoredKeys(urls + [u]) == RestoredKeys(urls) + {Key(u)}
  {
    assert u in urls + [u];
    forall x | x in urls ensures x in urls + [u] {
    }
  }

  /** urls lists the set, in whatever order. */
  ghost predicate Lists(urls: seq<string>, keys: set<string>) {
    multiset(urls) == multiset(keys)
  }

  /** A checkpoint restores exactly the seen set it was taken from. */
  lemma CheckpointRoundTrip(keys: set<string>, urls: seq<string>)
    requires forall k :: k in keys ==> Text.Trimmed(k)
    requires Lists(urls, keys)
    ensures RestoredKeys(urls) == keys
  {
    forall k ensures k in keys <==> k in urls {
      assert k in keys <==> k in multiset(keys);
      assert k in urls <==> k in multiset(urls);
    }
    forall k | k in keys ensures Key(k) == k {
      Text.TrimIsTrimmed(k);
    }
  }

  class Spider {
    const cfg: Config
    var seen: set<string>
    var domainHit: map<string, int>

    /** Everything in the seen set went through TrimSpace. */
    ghost predicate Valid()
      reads this
    {
      cfg.Valid() && forall k :: k in seen ==> Text.Trimmed(k)
    }

    /** checkpoint is what the checkpoint file lists; it is empty when there is none. */
    constructor (cfg: Config, checkpoint: seq<string>)
      requires cfg.Valid()
      ensures Valid() && this.cfg == cfg && seen == RestoredKeys(checkpoint) && domainHit == map[]
    {
      this.cfg := cfg;
      seen := {};
      domainHit := map[];
      new;
      RestoreCheckpoint(checkpoint);
    }

    method AllowsUrl(url: string) returns (allowed: bool)
      ensures allowed == UrlAllowed(cfg, url)
      ensures var host := cfg.hostOf(url); allowed <==>
        host.Some? && (cfg.allowHosts == {} || host.value in cfg.allowHosts) && host.value !in cfg.denyHosts
    {
      var host := cfg.hostOf(url);
      if host.None? {
        return false;
      }
      if |cfg.allowHosts| > 0 {
        if host.value !in cfg.allowHosts {
          return false;
        }
      }
      if host.value in cfg.denyHosts {
        return false;
      }
      return true;
    }

    /** now is the clock under the lock, and slack how much later than asked the sleep ends. */
    method WaitDomain(rawURL: string, now: int, slack: nat) returns (through: int)
      modifies this`domainHit
      ensures var c := DomainPacing.Call(cfg.hostOf(rawURL), now, slack);
        && through == DomainPacing.Through(old(domainHit), cfg.domainMinInterval, c)
        && domainHit == DomainPacing.AfterCall(old(domainHit), cfg.domainMinInterval, c)
    {
      through := now;
      var host := cfg.hostOf(rawURL);
      if host.None? {
        return;
      }
      if host.value in domainHit {
        var wait := cfg.domainMinInterval - (now - domainHit[host.value]);
        if wait > 0 {
          through := now + wait;
        }
      }
      through := through + slack;
      domainHit := domainHit[host.value := through];
    }

    method MarkSeen(rawURL: string) returns (isNew: bool)
      requires Valid()
      modifies this`seen
      ensures Valid()
      ensures isNew <==> IsNew(old(seen), rawURL)
      ensures isNew <==> Text.Trim(rawURL) != "" && Text.Trim(rawURL) !in old(seen)
      ensures seen == old(seen) + if isNew then {Text.Trim(rawURL)} else {}
    {
      var key := Text.Trim(rawURL);
      Text.TrimIsTrimmed(rawURL);
      if key == "" {
        return false;
      }
      if key in seen {
        return false;
      }
      seen := seen + {key};
      return true;
    }

    method SnapshotSeen() returns (urls: seq<string>)
      ensures Lists(urls, seen)
    {
      urls := [];
      var rest := seen;
      while rest != {}
        invariant rest <= seen
        invariant Lists(urls, seen - rest)
        decreases |rest|
      {
        var u :| u in rest;
        assert seen - (rest - {u}) == (seen - rest) + {u};
        assert multiset(seen - (rest - {u})) == multiset(seen - rest) + multiset{u};
        urls := urls + [u];
        rest := rest - {u};
      }
      assert seen - {} == seen;
    }

    method RestoreCheckpoint(urls: seq<string>)
      requires Valid()
      modifies this`seen
      ensures Valid() && seen == old(seen) + RestoredKeys(urls)
    {
      var i := 0;
      while i < |urls|
        invariant 0 <= i <= |urls|
        invariant Valid() && seen == old(seen) + RestoredKeys(urls[..i])
      {
        Text.TrimIsTrimmed(urls[i]);
        assert urls[..i + 1] == urls[..i] + [urls[i]];
        RestoredKeysPush(urls[..i], urls[i]);
        seen := seen + {Text.Trim(urls[i])};
        i := i + 1;
      }
      assert urls[..i] == urls;
    }
  }
}
