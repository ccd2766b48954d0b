/** Datatypes and counting facts shared by the other modules. */
module Common {

  datatype Option<+T> = None | Some(value: T)

  function Min(a: int, b: int): int {
    if a < b then a else b
  }

  function Max(a: int, b: int): int {
    if a < b then b else a
  }

  /** An element that stands at two positions has multiplicity at least two. */
  lemma TwiceIsTwo<T>(s: seq<T>, i: nat, j: nat)
    requires i < j < |s| && s[i] == s[j]
    ensures multiset(s)[s[i]] >= 2
  {
    assert s == s[..j] + [s[j]] + s[j + 1..];
    assert s[i] in s[..j];
  }

  /** The image of s under key has no repetition. */
  ghost predicate DistinctBy<T, K>(s: seq<T>, key: T -> K) {
    forall i, j :: 0 <= i < j < |s| ==> key(s[i]) != key(s[j])
  }

  lemma {:induction false} DistinctAtMostOnce<T, K>(s: seq<T>, key: T -> K, x: T)
    requires DistinctBy(s, key)
    ensures multiset(s)[x] <= 1
  {
    if s != [] {
      var n := |s| - 1;
      assert s == s[..n] + [s[n]];
      DistinctAtMostOnce(s[..n], key, x);
      forall i | 0 <= i < n ensures s[i] != s[n] {
        assert key(s[i]) != key(s[n]);
      }
    }
  }

  /** A log contained, as a multiset, in a repetition-free log is itself repetition-free. */
  lemma SubLogDistinct<T, K>(log: seq<T>, whole: seq<T>, key: T -> K)
    requires multiset(log) <= multiset(whole)
    requires DistinctBy(whole, key)
    ensures DistinctBy(log, key)
  {
    forall i, j | 0 <= i < j < |log| ensures key(log[i]) != key(log[j]) {
      if key(log[i]) == key(log[j]) {
        assert log[i] in multiset(whole) && log[j] in multiset(whole);
        var a :| 0 <= a < |whole| && whole[a] == log[i];
        var b :| 0 <= b < |whole| && whole[b] == log[j];
        assert a == b;
        TwiceIsTwo(log, i, j);
        DistinctAtMostOnce(whole, key, log[i]);
        assert false;
      }
    }
  }
}
