/** The pool of fetchers, handed out in rotation while it may grow. */
module SessionPool {
  import opened Common

  datatype Kind = Http | Stealth | Dynamic

  class FetcherSessionPool<F> {
    var pools: map<Kind, seq<F>>
    var nextIdx: map<Kind, nat>

    function Pool(kind: Kind): seq<F>
      reads this
    {
      if kind in pools then pools[kind] else []
    }

    function NextOf(kind: Kind): nat
      reads this
    {
      if kind in nextIdx then nextIdx[kind] else 0
    }

    /** The next index stays inside a pool that has any fetchers. */
    ghost predicate Valid()
      reads this
    {
      forall kind :: NextOf(kind) == 0 || NextOf(kind) < |Pool(kind)|
    }

    constructor ()
      ensures Valid() && forall kind :: Pool(kind) == [] && NextOf(kind) == 0
    {
      pools, nextIdx := map[], map[];
    }

    /** A missing fetcher is refused. */
    method Add(kind: Kind, fetcher: Option<F>) returns (ok: bool)
      requires Valid()
      modifies this`pools
      ensures Valid() && ok == fetcher.Some?
      ensures Pool(kind) == if ok then old(Pool(kind)) + [fetcher.value] else old(Pool(kind))
      ensures forall other :: other != kind ==> Pool(other) == old(Pool(other))
      ensures ok ==> AfterOp(Rotation(|old(Pool(kind))|, NextOf(kind)), Op.Add) == Rotation(|Pool(kind)|, NextOf(kind))
    {
      if fetcher.None? {
        return false;
      }
      pools := pools[kind := Pool(kind) + [fetcher.value]];
      forall k ensures k != kind ==> Pool(k) == old(Pool(k)) {
      }
      forall k ensures NextOf(k) == 0 || NextOf(k) < |Pool(k)| {
        assert NextOf(k) == old(NextOf(k)) && |old(Pool(k))| <= |Pool(k)|;
      }
      return true;
    }

    method Acquire(kind: Kind) returns (f: Option<F>)
      requires Valid()
      modifies this`nextIdx
      ensures Valid()
      ensures f.None? <==> Pool(kind) == []
      ensures f.Some? ==> f.value == Pool(kind)[Position(Rotation(|Pool(kind)|, old(NextOf(kind))))]
      ensures Rotation(|Pool(kind)|, NextOf(kind)) == AfterOp(Rotation(|Pool(kind)|, old(NextOf(kind))), Op.Acquire)
      ensures forall other :: other != kind ==> NextOf(other) == old(NextOf(other))
    {
      var pool := Pool(kind);
      if |pool| == 0 {
        return None;
      }
      var i := NextOf(kind) % |pool|;
      nextIdx := nextIdx[kind := (i + 1) % |pool|];
      forall k ensures Pool(k) == old(Pool(k)) && (k != kind ==> NextOf(k) == old(NextOf(k))) {
      }
      forall k ensures NextOf(k) == 0 || NextOf(k) < |Pool(k)| {
        assert k != kind ==> NextOf(k) == old(NextOf(k));
      }
      return Some(pool[i]);
    }
  }

  // ---- Rotation over a growing pool ----

  datatype Op = Add | Acquire

  datatype Rotation = Rotation(size: nat, next: nat)

  /** The position that an Acquire hands out. */
  function Position(r: Rotation): nat
    requires r.size > 0
  {
    r.next % r.size
  }

  function AfterOp(r: Rotation, op: Op): Rotation {
    match op
    case Add => r.(size := r.size + 1)
    case Acquire => if r.size == 0 then r else r.(next := (Position(r) + 1) % r.size)
  }

  function After(ops: seq<Op>): Rotation {
    if ops == [] then Rotation(0, 0) else AfterOp(After(ops[..|ops| - 1]), ops[|ops| - 1])
  }

  /** A position handed out, and the size of the pool at the time. */
  datatype Grant = Grant(position: nat, size: nat)

  function Grants(ops: seq<Op>): seq<Grant> {
    if ops == [] then [] else
    var front := ops[..|ops| - 1];
    var r := After(front);
    Grants(front) + if ops[|ops| - 1].Acquire? && r.size > 0 then [Grant(Position(r), r.size)] else []
  }

  ghost predicate Follows(a: Grant, b: Grant) {
    && a.position < a.size <= b.size && b.position < b.size
    && b.position == if a.position + 1 == a.size then 0 else a.position + 1
  }

  /** Each grant follows the previous one: one position on, or back to the start from the last position. */
  ghost predicate Rotates(grants: seq<Grant>) {
    forall k, m :: 0 <= k && m == k + 1 < |grants| ==> Follows(grants[k], grants[m])
  }

  lemma Modulo(i: nat, n: nat)
    requires i < n
    ensures i % n == i && (i + 1) % n == if i + 1 == n then 0 else i + 1
  {
  }

  /** Where the rotation stands after its last grant. */
  ghost predicate Stands(r: Rotation, grants: seq<Grant>) {
    && (r.next == 0 || r.next < r.size)
    && (grants == [] ==> r.next == 0)
    && (grants != [] ==>
          var g := grants[|grants| - 1];
          g.position < g.size <= r.size && r.next == if g.position + 1 == g.size then 0 else g.position + 1)
  }

  lemma AcquireStands(r: Rotation, grants: seq<Grant>)
    requires Stands(r, grants) && Rotates(grants) && r.size > 0
    ensures var longer := grants + [Grant(Position(r), r.size)];
      Stands(AfterOp(r, Op.Acquire), longer) && Rotates(longer)
  {
    Modulo(r.next, r.size);
    var longer := grants + [Grant(r.next, r.size)];
    forall k, m | 0 <= k && m == k + 1 < |longer| ensures Follows(longer[k], longer[m]) {
      if m < |grants| {
        assert Follows(grants[k], grants[m]);
      }
    }
  }

  lemma {:induction false} GrantsRotate(ops: seq<Op>)
    ensures Rotates(Grants(ops)) && Stands(After(ops), Grants(ops))
  {
    if ops != [] {
      var front := ops[..|ops| - 1];
      GrantsRotate(front);
      if ops[|ops| - 1].Acquire? && After(front).size > 0 {
        AcquireStands(After(front), Grants(front));
      } else {
        assert Grants(ops) == Grants(front);
      }
    }
  }

  /** Positions climb by one from a grant on as long as no grant is the last of its pool. */
  lemma {:induction false} Climb(grants: seq<Grant>, a: nat, k: nat)
    requires Rotates(grants) && a <= k < |grants|
    requires forall j :: a <= j < k ==> grants[j].position + 1 != grants[j].size
    ensures grants[k].position == grants[a].position + (k - a)
    ensures grants[a].size <= grants[k].size
    decreases k - a
  {
    if a < k {
      Climb(grants, a, k - 1);
      assert Follows(grants[k - 1], grants[k]);
    }
  }

  /** From the start of the pool the rotation climbs at least to any position that every pool has. */
  lemma {:induction false} ClimbFromStart(grants: seq<Grant>, z: nat, p: nat, k: nat)
    requires Rotates(grants) && z <= k < |grants| && grants[z].position == 0 && p < grants[z].size && k - z <= p
    ensures grants[k].position == k - z && grants[z].size <= grants[k].size
    decreases k - z
  {
    if z < k {
      ClimbFromStart(grants, z, p, k - 1);
      assert Follows(grants[k - 1], grants[k]);
    }
  }

  /** The first grant from a on that is the last of its pool comes before position p is granted again. */
  lemma {:induction false} FindWrap(grants: seq<Grant>, a: nat, k: nat, b: nat) returns (w: nat)
    requires Rotates(grants) && a <= k <= b < |grants| && a < b && grants[a].position == grants[b].position
    requires forall j :: a <= j < k ==> grants[j].position + 1 != grants[j].size
    ensures a <= w < b && grants[w].position + 1 == grants[w].size
    ensures forall j :: a <= j < w ==> grants[j].position + 1 != grants[j].size
    decreases b - k
  {
    if k == b {
      Climb(grants, a, b);
      assert false;
    } else if grants[k].position + 1 == grants[k].size {
      w := k;
    } else {
      w := FindWrap(grants, a, k + 1, b);
    }
  }

  /** Two successive grants of one position, and everything in between. */
  ghost predicate Lap(grants: seq<Grant>, a: nat, b: nat) {
    && a < b < |grants|
    && grants[a].position == grants[b].position
    && forall k :: a < k < b ==> grants[k].position != grants[a].position
  }

  /** Between two grants of p, positions climb from p to the end and then from the start to p. */
  lemma LapShape(grants: seq<Grant>, a: nat, b: nat) returns (w: nat)
    requires Rotates(grants) && Lap(grants, a, b)
    ensures a <= w < b && grants[a].size <= grants[w].size
    ensures forall k :: a <= k <= w ==> grants[k].position == grants[a].position + (k - a)
    ensures grants[w].position + 1 == grants[w].size
    ensures forall k :: w < k <= b ==> grants[k].position == k - (w + 1)
    ensures b == w + 1 + grants[a].position
  {
    var p := grants[a].position;
    w := FindWrap(grants, a, a, b);
    assert Follows(grants[w], grants[w + 1]);
    forall k | a <= k <= w ensures grants[k].position == p + (k - a) {
      Climb(grants, a, k);
    }
    Climb(grants, a, w);
    if b < w + 1 + p {
      ClimbFromStart(grants, w + 1, p, b);
      assert false;
    }
    ClimbFromStart(grants, w + 1, p, w + 1 + p);
    forall k | w < k <= b ensures grants[k].position == k - (w + 1) {
      ClimbFromStart(grants, w + 1, p, k);
    }
  }

  /** Strictly between a and b position q is handed out at k and nowhere else. */
  ghost predicate OnlyGrant(grants: seq<Grant>, a: nat, b: nat, q: nat, k: nat) {
    && a < k < b <= |grants|
    && grants[k].position == q
    && forall m :: a < m < b && grants[m].position == q ==> m == k
  }

  /**
   Between two successive Acquires of one position every other position that existed at the first is
   handed out exactly once, whatever Adds come in between.
   */
  lemma EveryoneElseOnce(ops: seq<Op>, a: nat, b: nat, q: nat)
    requires Lap(Grants(ops), a, b) && q < Grants(ops)[a].size && q != Grants(ops)[a].position
    ensures exists k :: OnlyGrant(Grants(ops), a, b, q, k)
  {
    var grants := Grants(ops);
    GrantsRotate(ops);
    var w := LapShape(grants, a, b);
    var p := grants[a].position;
    var k := if q > p then a + (q - p) else w + 1 + q;
    assert grants[k].position == q;
    forall m | a < m < b && grants[m].position == q ensures m == k {
      assert m <= w ==> grants[m].position == p + (m - a);
    }
    assert OnlyGrant(grants, a, b, q, k);
  }

  /** The next index always lies inside a pool that has any fetchers. */
  lemma NextStaysInside(ops: seq<Op>)
    ensures After(ops).size > 0 ==> After(ops).next < After(ops).size
    ensures After(ops).size == 0 ==> After(ops).next == 0
  {
    GrantsRotate(ops);
  }
}
