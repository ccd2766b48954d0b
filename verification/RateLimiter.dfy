/** The adaptive rate limiter: one slot is reserved for every call to Wait. */
module RateLimiter {
  import opened Common

  /** clampDuration; with min above max it still returns one of the two. */
  function Clamp(d: int, min: int, max: int): (r: int)
    ensures Min(min, max) <= r <= Max(min, max)
    ensures min <= max ==> min <= r <= max && (min <= d <= max ==> r == d)
    ensures (d < min ==> r == min) && (min <= d && max < d ==> r == max)
  {
    if d < min then min else if d > max then max else d
  }

  class AdaptiveRateLimiter {
    const base: int
    const max: int
    var current: int
    var lastReq: Option<int>  // None where the source has the zero time

    ghost predicate Valid()
      reads this
    {
      base > 0 && max > 0 && Min(base, max) <= current <= Max(base, max)
    }

    constructor (base: int, max: int)
      requires base > 0 && max > 0
      ensures Valid() && this.base == base && this.max == max && current == base && lastReq == None
    {
      this.base, this.max := base, max;
      current := base;
      lastReq := None;
    }

    /** draw is the Gaussian sample around current, now the clock under the lock. */
    method Wait(now: int, draw: int) returns (wait: int)
      requires Valid()
      modifies this`lastReq
      ensures lastReq == Some(Reserve(base, max, old(lastReq), Call(now, draw)))
      ensures 0 <= wait == lastReq.value - now
    {
      var jittered := Clamp(draw, base / 2, max * 2);
      wait := 0;
      if lastReq.Some? {
        var elapsed := now - lastReq.value;
        if elapsed < jittered {
          wait := jittered - elapsed;
        }
      }
      lastReq := Some(now + wait);
    }

    method OnBlock()
      requires Valid()
      modifies this`current
      ensures Valid() && current == Clamp(2 * old(current), base, max)
      ensures base <= max ==> current >= old(current)
    {
      current := Clamp(2 * current, base, max);
    }

    method OnSuccess()
      requires Valid()
      modifies this`current
      ensures Valid() && current == Max((old(current) as real * 0.85).Floor, base)
      ensures base <= max ==> base <= current <= old(current)
    {
      var shrunk := (current as real * 0.85).Floor;
      if shrunk < base {
        shrunk := base;
      }
      current := shrunk;
    }
  }

  // ---- Slots ----

  datatype Call = Call(now: int, draw: int)

  /** The slot a call gets: now, or one jittered delay after the slot before it, whichever is later. */
  function Reserve(base: int, max: int, last: Option<int>, c: Call): int {
    if last.None? then c.now else Max(c.now, last.value + Clamp(c.draw, base / 2, max * 2))
  }

  function MinGap(base: int, max: int): int {
    Min(base / 2, max * 2)
  }

  function MaxGap(base: int, max: int): int {
    Max(base / 2, max * 2)
  }

  function LastSlot(slots: seq<int>): Option<int> {
    if slots == [] then None else Some(slots[|slots| - 1])
  }

  /** The slots of a run of calls, including those whose callers were cancelled. */
  function Slots(base: int, max: int, calls: seq<Call>): (slots: seq<int>)
    ensures |slots| == |calls|
  {
    if calls == [] then [] else
    var before := Slots(base, max, calls[..|calls| - 1]);
    before + [Reserve(base, max, LastSlot(before), calls[|calls| - 1])]
  }

  lemma {:induction false} SlotsPrefix(base: int, max: int, calls: seq<Call>, n: nat)
    requires n <= |calls|
    ensures Slots(base, max, calls[..n]) == Slots(base, max, calls)[..n]
    decreases |calls|
  {
    if n < |calls| {
      SlotsPrefix(base, max, calls[..|calls| - 1], n);
      assert calls[..|calls| - 1][..n] == calls[..n];
    } else {
      assert calls[..n] == calls;
    }
  }

  /**
   The first call goes at once, and every later one at its own time or one draw after the slot before, a draw
   below half the base delay counting as that and one above twice the maximum as that.
   */
  lemma SlotIs(base: int, max: int, calls: seq<Call>, j: nat)
    requires base > 0 && max > 0 && j < |calls|
    ensures var slots, c := Slots(base, max, calls), calls[j];
      if j == 0 then slots[0] == c.now else
      var gap := if c.draw < base / 2 then base / 2 else if c.draw > 2 * max then 2 * max else c.draw;
      slots[j] == if slots[j - 1] + gap > c.now then slots[j - 1] + gap else c.now
  {
    SlotsPrefix(base, max, calls, j);
    SlotsPrefix(base, max, calls, j + 1);
    assert calls[..j + 1][..j] == calls[..j];
    assert Slots(base, max, calls[..j + 1])[j] == Slots(base, max, calls)[j];
  }

  /** Each slot is at least one gap after the one before. */
  lemma NextSlot(base: int, max: int, calls: seq<Call>, j: nat)
    requires base > 0 && max > 0 && 0 < j < |calls|
    ensures Slots(base, max, calls)[j] >= Slots(base, max, calls)[j - 1] + MinGap(base, max)
  {
    SlotsPrefix(base, max, calls, j);
    SlotsPrefix(base, max, calls, j + 1);
    assert calls[..j + 1][..j] == calls[..j];
    assert Slots(base, max, calls[..j + 1])[j] == Slots(base, max, calls)[j];
    assert Slots(base, max, calls[..j])[j - 1] == Slots(base, max, calls)[j - 1];
  }

  lemma {:induction false} SlotsGaps(base: int, max: int, calls: seq<Call>, i: nat, j: nat)
    requires base > 0 && max > 0 && i <= j < |calls|
    ensures Slots(base, max, calls)[j] - Slots(base, max, calls)[i] >= Gaps(j - i, MinGap(base, max))
    decreases j - i
  {
    if i < j {
      SlotsGaps(base, max, calls, i, j - 1);
      NextSlot(base, max, calls, j);
    }
  }

  lemma BeyondGaps(x: int, k: nat, gap: int)
    requires x >= Gaps(k, gap)
    ensures x >= k * gap
  {
    GapsProduct(k, gap);
  }

  lemma SlotsApart(base: int, max: int, calls: seq<Call>, i: nat, j: nat)
    requires base > 0 && max > 0 && i <= j < |calls|
    ensures Slots(base, max, calls)[j] - Slots(base, max, calls)[i] >= (j - i) * MinGap(base, max)
  {
    SlotsGaps(base, max, calls, i, j);
    BeyondGaps(Slots(base, max, calls)[j] - Slots(base, max, calls)[i], j - i, MinGap(base, max));
  }

  function InWindow(slots: seq<int>, from: int, to: int): nat {
    if slots == [] then 0
    else InWindow(slots[..|slots| - 1], from, to) + if from <= slots[|slots| - 1] <= to then 1 else 0
  }

  ghost predicate Spaced(slots: seq<int>, gap: int) {
    forall i, j :: 0 <= i && j == i + 1 < |slots| ==> slots[j] >= slots[i] + gap
  }

  /** The last slot inside a window lies one gap per earlier slot after its start. */
  lemma {:induction false} WindowFills(slots: seq<int>, from: int, to: int, gap: int)
    requires gap > 0 && Spaced(slots, gap)
    ensures InWindow(slots, from, to) > 0 ==>
      && from + (InWindow(slots, from, to) - 1) * gap <= to
      && (slots[|slots| - 1] <= to ==> from + (InWindow(slots, from, to) - 1) * gap <= slots[|slots| - 1])
  {
    if slots != [] {
      var front := slots[..|slots| - 1];
      WindowFills(front, from, to, gap);
      var n := InWindow(front, from, to);
      assert n > 0 ==> from + n * gap == from + (n - 1) * gap + gap;
    }
  }

  lemma SlotsSpaced(base: int, max: int, calls: seq<Call>)
    requires base > 0 && max > 0
    ensures Spaced(Slots(base, max, calls), MinGap(base, max))
  {
    var slots := Slots(base, max, calls);
    forall i, j | 0 <= i && j == i + 1 < |slots| ensures slots[j] >= slots[i] + MinGap(base, max) {
      NextSlot(base, max, calls, j);
    }
  }

  lemma SpacedWindow(slots: seq<int>, gap: int, from: int, length: nat)
    requires gap > 0 && Spaced(slots, gap)
    ensures InWindow(slots, from, from + length) <= length / gap + 1
  {
    WindowFills(slots, from, from + length, gap);
    var n := InWindow(slots, from, from + length);
    if n > 0 {
      AtMostQuotient(n - 1, gap, length);
    }
  }

  /** Any interval of length L holds at most L/gap + 1 slots. */
  lemma WindowBound(base: int, max: int, calls: seq<Call>, from: int, length: nat)
    requires max > 0 && MinGap(base, max) > 0
    ensures InWindow(Slots(base, max, calls), from, from + length) <= length / MinGap(base, max) + 1
  {
    SlotsSpaced(base, max, calls);
    SpacedWindow(Slots(base, max, calls), MinGap(base, max), from, length);
  }

  lemma AtMostQuotient(n: nat, gap: int, length: nat)
    requires gap > 0 && n * gap <= length
    ensures n <= length / gap
  {
    var q := length / gap;
    assert length < (q + 1) * gap;
    if n >= q + 1 {
      Scale(q + 1, n, gap);
    }
  }

  lemma Scale(a: int, b: int, gap: int)
    requires gap > 0 && a <= b
    ensures a * gap <= b * gap
  {
  }

  /** How many slots lie in the future of now. */
  function Backlog(slots: seq<int>, now: int): nat {
    if slots == [] then 0 else Backlog(slots[..|slots| - 1], now) + if slots[|slots| - 1] > now then 1 else 0
  }

  ghost predicate Ordered(calls: seq<Call>) {
    forall i, j :: 0 <= i < j < |calls| ==> calls[i].now <= calls[j].now
  }

  /** k gaps. */
  function Gaps(k: nat, gap: int): int {
    if k == 0 then 0 else Gaps(k - 1, gap) + gap
  }

  lemma {:induction false} GapsProduct(k: nat, gap: int)
    ensures Gaps(k, gap) == k * gap
  {
    if k > 0 {
      GapsProduct(k - 1, gap);
    }
  }

  lemma {:induction false} GapsAreForward(k: nat, gap: int)
    requires gap >= 0
    ensures 0 <= Gaps(k, gap) <= Gaps(k + 1, gap)
  {
    if k > 0 {
      GapsAreForward(k - 1, gap);
    }
  }

  /** A reserved slot is the present or at most one gap after the last one. */
  lemma ReserveReach(base: int, max: int, last: Option<int>, c: Call)
    requires base > 0 && max > 0
    ensures var slot := Reserve(base, max, last, c);
      c.now <= slot && (slot == c.now || (last.Some? && slot <= last.value + MaxGap(base, max)))
  {
  }

  /** The last slot is at most one gap ahead of the clock for each slot that is ahead at all. */
  lemma {:induction false} BacklogReach(base: int, max: int, calls: seq<Call>, now: int)
    requires base > 0 && max > 0 && calls != [] && Ordered(calls) && calls[|calls| - 1].now <= now
    ensures var slots := Slots(base, max, calls);
      slots[|slots| - 1] - now <= Gaps(Backlog(slots, now), MaxGap(base, max))
  {
    var gap := MaxGap(base, max);
    var front := calls[..|calls| - 1];
    var before := Slots(base, max, front);
    var slots := Slots(base, max, calls);
    assert slots[..|slots| - 1] == before;
    GapsAreForward(Backlog(slots, now), gap);
    var last := LastSlot(before);
    ReserveReach(base, max, last, calls[|calls| - 1]);
    if slots[|slots| - 1] > now {
      BacklogReach(base, max, front, now);
      assert Backlog(slots, now) == Backlog(before, now) + 1;
    }
  }

  /** One more call at the end. */
  lemma OneMore(base: int, max: int, calls: seq<Call>, c: Call)
    requires base > 0 && max > 0 && Ordered(calls + [c])
    ensures var before, slots := Slots(base, max, calls), Slots(base, max, calls + [c]);
      slots[|calls|] == Reserve(base, max, LastSlot(before), c)
    ensures Ordered(calls) && (calls != [] ==> calls[|calls| - 1].now <= c.now)
  {
    var all := calls + [c];
    assert all[..|calls|] == calls && all[|calls|] == c;
    forall i | 0 <= i < |calls| ensures calls[i] == all[i] && calls[i].now <= c.now {
    }
  }

  lemma WithinGaps(x: int, k: nat, gap: int)
    requires 0 <= x <= Gaps(k, gap)
    ensures 0 <= x <= k * gap
  {
    GapsProduct(k, gap);
  }

  lemma OneGapFurther(k: nat, gap: int, last: Option<int>, now: int, slot: int)
    requires gap >= 0 && now <= slot && (slot == now || (last.Some? && slot <= last.value + gap))
    requires last.Some? ==> last.value - now <= Gaps(k, gap)
    ensures slot - now <= Gaps(k + 1, gap)
  {
    GapsAreForward(k, gap);
  }

  lemma WaitGaps(base: int, max: int, calls: seq<Call>, c: Call)
    requires base > 0 && max > 0 && Ordered(calls) && (calls != [] ==> calls[|calls| - 1].now <= c.now)
    ensures var before := Slots(base, max, calls); var slot := Reserve(base, max, LastSlot(before), c);
      0 <= slot - c.now <= Gaps(Backlog(before, c.now) + 1, MaxGap(base, max))
  {
    var before := Slots(base, max, calls);
    var last := LastSlot(before);
    ReserveReach(base, max, last, c);
    if calls != [] {
      BacklogReach(base, max, calls, c.now);
    }
    OneGapFurther(Backlog(before, c.now), MaxGap(base, max), last, c.now, Reserve(base, max, last, c));
  }

  lemma WaitProduct(base: int, max: int, calls: seq<Call>, c: Call)
    requires base > 0 && max > 0 && Ordered(calls) && (calls != [] ==> calls[|calls| - 1].now <= c.now)
    ensures var before := Slots(base, max, calls);
      0 <= Reserve(base, max, LastSlot(before), c) - c.now <= (Backlog(before, c.now) + 1) * MaxGap(base, max)
  {
    var before := Slots(base, max, calls);
    WaitGaps(base, max, calls, c);
    WithinGaps(Reserve(base, max, LastSlot(before), c) - c.now, Backlog(before, c.now) + 1, MaxGap(base, max));
  }

  /** A caller that finds k slots still in the future waits at most k + 1 of the largest gaps. */
  lemma WaitBound(base: int, max: int, calls: seq<Call>, c: Call)
    requires base > 0 && max > 0 && Ordered(calls + [c])
    ensures var slots := Slots(base, max, calls + [c]);
      0 <= slots[|calls|] - c.now <= (Backlog(Slots(base, max, calls), c.now) + 1) * MaxGap(base, max)
  {
    OneMore(base, max, calls, c);
    WaitProduct(base, max, calls, c);
  }

  /** With base below four times max the gaps are base/2 and 2*max. */
  lemma UsualGaps(base: int, max: int)
    requires base / 2 <= max * 2
    ensures MinGap(base, max) == base / 2 && MaxGap(base, max) == max * 2
  {
  }
}
