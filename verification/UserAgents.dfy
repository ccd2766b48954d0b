/** The weighted pool of user agents. */
module UserAgents {
  import W = WeightedPick

  datatype UAEntry = UAEntry(ua: string, family: string, weight: int)

  function WeightsOf(entries: seq<UAEntry>): (ws: seq<int>)
    ensures |ws| == |entries|
  {
    seq(|entries|, i requires 0 <= i < |entries| => entries[i].weight)
  }

  class UserAgentPool {
    var entries: seq<UAEntry>
    var total: int

    ghost predicate Valid()
      reads this
    {
      total == W.Sum(WeightsOf(entries)) && W.NonNegative(WeightsOf(entries)) && total > 0
    }

    /** NewUserAgentPool over its list of default entries. */
    constructor (defaults: seq<UAEntry>)
      requires W.NonNegative(WeightsOf(defaults)) && W.Sum(WeightsOf(defaults)) > 0
      ensures Valid() && entries == defaults
    {
      entries, total := [], 0;
      new;
      var i := 0;
      while i < |defaults|
        invariant 0 <= i <= |defaults| && entries == defaults[..i] && total == W.Sum(WeightsOf(entries))
      {
        entries := entries + [defaults[i]];
        assert WeightsOf(entries)[..i] == WeightsOf(defaults[..i]);
        total := total + defaults[i].weight;
        i := i + 1;
      }
      assert defaults[..i] == defaults;
    }

    /** singleUAPool */
    constructor Single(ua: string)
      ensures Valid() && entries == [UAEntry(ua, "", 1)]
    {
      entries := [UAEntry(ua, "", 1)];
      total := 1;
      new;
      assert WeightsOf(entries) == [1];
      assert [1][..0] == [];
    }

    /** draw is rand.Intn(total). */
    method Pick(draw: nat) returns (e: UAEntry)
      requires Valid() && draw < total
      ensures exists k :: 0 <= k < |entries| && e == entries[k] && W.Selects(WeightsOf(entries), draw, k)
    {
      var k, fell := W.Choose(WeightsOf(entries), draw);
      assert !fell;
      e := entries[k];
    }
  }

  /** The pool pinned to a solver's user agent yields nothing else. */
  lemma SingleAlwaysPicks(ua: string, draw: nat, k: nat)
    requires W.Selects(WeightsOf([UAEntry(ua, "", 1)]), draw, k)
    ensures [UAEntry(ua, "", 1)][k].ua == ua && draw == 0
  {
    assert WeightsOf([UAEntry(ua, "", 1)]) == [1];
    assert [1][..1] == [1] && [1][..0] == [];
  }
}
