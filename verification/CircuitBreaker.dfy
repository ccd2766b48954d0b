/** The circuit breaker: a counter of consecutive blocks and the time until which requests fail fast. */
module CircuitBreaker {
  import opened Common

  const DEFAULT_THRESHOLD := 5
  const DEFAULT_COOLDOWN := 60_000_000_000

  /** openUntil is None where the source has the zero time. */
  datatype Breaker = Breaker(threshold: int, cooldown: int, consecutive: int, openUntil: Option<int>)

  function New(threshold: int, cooldown: int): (b: Breaker)
    ensures b.threshold > 0 && b.cooldown > 0 && b.consecutive == 0 && b.openUntil == None
    ensures (threshold > 0 ==> b.threshold == threshold) && (threshold <= 0 ==> b.threshold == 5)
    ensures (cooldown > 0 ==> b.cooldown == cooldown) && (cooldown <= 0 ==> b.cooldown == 60_000_000_000)
  {
    Breaker(if threshold <= 0 then DEFAULT_THRESHOLD else threshold,
            if cooldown <= 0 then DEFAULT_COOLDOWN else cooldown, 0, None)
  }

  predicate IsOpen(b: Breaker, now: int) {
    b.openUntil.Some? && now < b.openUntil.value
  }

  /** RecordBlock reads the clock at checkedAt and again at openedAt. */
  function AfterBlock(b: Breaker, openedAt: int): Breaker {
    b.(consecutive := b.consecutive + 1,
       openUntil := if b.consecutive + 1 >= b.threshold then Some(openedAt + b.cooldown) else b.openUntil)
  }

  predicate BlockOpens(b: Breaker, checkedAt: int) {
    b.consecutive + 1 >= b.threshold && !IsOpen(b, checkedAt)
  }

  function AfterSuccess(b: Breaker): Breaker {
    b.(consecutive := 0, openUntil := None)
  }

  // ---- Histories ----

  datatype Event = Blocked(checkedAt: int, openedAt: int) | Succeeded(at: int)

  function Replay(b: Breaker, history: seq<Event>): Breaker {
    if history == [] then b else
    var last := history[|history| - 1];
    var before := Replay(b, history[..|history| - 1]);
    if last.Blocked? then AfterBlock(before, last.openedAt) else AfterSuccess(before)
  }

  /** The length of the run of blocks that ends the history. */
  function TrailingBlocks(history: seq<Event>): (n: nat)
    ensures n <= |history| && forall i :: |history| - n <= i < |history| ==> history[i].Blocked?
    ensures n < |history| ==> history[|history| - 1 - n].Succeeded?
  {
    if history == [] || history[|history| - 1].Succeeded? then 0
    else 1 + TrailingBlocks(history[..|history| - 1])
  }

  /**
   The breaker is a function of its history alone: the counter is the number of blocks since the last
   success, and the breaker is open until one cooldown after the last block exactly when that number
   has reached the threshold.
   */
  lemma {:induction false} ReplayMeaning(threshold: int, cooldown: int, history: seq<Event>)
    ensures var b, n := Replay(New(threshold, cooldown), history), TrailingBlocks(history);
      && b.threshold == New(threshold, cooldown).threshold && b.cooldown == New(threshold, cooldown).cooldown
      && b.consecutive == n
      && b.openUntil == if n >= b.threshold then Some(history[|history| - 1].openedAt + b.cooldown) else None
  {
    if history != [] {
      ReplayMeaning(threshold, cooldown, history[..|history| - 1]);
    }
  }

  /** Requests fail fast exactly from a block that reaches the threshold until one cooldown later or a success. */
  lemma OpenMeaning(threshold: int, cooldown: int, history: seq<Event>, now: int)
    requires threshold > 0 && cooldown > 0
    ensures var n := TrailingBlocks(history);
      IsOpen(Replay(New(threshold, cooldown), history), now) <==>
        n >= threshold && now < history[|history| - 1].openedAt + cooldown
  {
    ReplayMeaning(threshold, cooldown, history);
  }

  /** A block is reported as opening the breaker when it reaches the threshold and no earlier cooldown is running. */
  lemma TripMeaning(threshold: int, cooldown: int, history: seq<Event>, checkedAt: int)
    requires threshold > 0 && cooldown > 0
    ensures var n := TrailingBlocks(history);
      BlockOpens(Replay(New(threshold, cooldown), history), checkedAt) <==>
        n + 1 == threshold || (n >= threshold && checkedAt >= history[|history| - 1].openedAt + cooldown)
  {
    ReplayMeaning(threshold, cooldown, history);
  }

  function StartTime(e: Event): int {
    if e.Blocked? then e.checkedAt else e.at
  }

  function EndTime(e: Event): int {
    if e.Blocked? then e.openedAt else e.at
  }

  /** The clock never goes back, within an event or between events. */
  ghost predicate Ordered(history: seq<Event>) {
    && (forall i :: 0 <= i < |history| ==> StartTime(history[i]) <= EndTime(history[i]))
    && (forall i, j :: 0 <= i < j < |history| ==> EndTime(history[i]) <= StartTime(history[j]))
  }

  /** RecordBlock reported at event i that it opened the breaker. */
  ghost predicate OpenedAt(threshold: int, cooldown: int, history: seq<Event>, i: nat)
    requires i < |history|
  {
    history[i].Blocked? && BlockOpens(Replay(New(threshold, cooldown), history[..i]), history[i].checkedAt)
  }

  lemma {:induction false} BlocksOnly(history: seq<Event>, i: nat, j: nat)
    requires i <= j <= |history|
    requires forall k :: i <= k < j ==> history[k].Blocked?
    ensures TrailingBlocks(history[..j]) == TrailingBlocks(history[..i]) + (j - i)
    decreases j - i
  {
    if i < j {
      assert history[..j][..j - 1] == history[..j - 1];
      BlocksOnly(history, i, j - 1);
    }
  }

  /** Two "opened" reports have a recorded success between them or are one cooldown apart. */
  lemma OpeningsAreSpaced(threshold: int, cooldown: int, history: seq<Event>, i: nat, j: nat)
    requires Ordered(history) && i < j < |history|
    requires OpenedAt(threshold, cooldown, history, i) && OpenedAt(threshold, cooldown, history, j)
    ensures || (exists k :: i < k < j && history[k].Succeeded?)
            || history[j].checkedAt >= history[i].openedAt + New(threshold, cooldown).cooldown
  {
    if forall k :: i < k < j ==> history[k].Blocked? {
      ReplayMeaning(threshold, cooldown, history[..i]);
      ReplayMeaning(threshold, cooldown, history[..j]);
      BlocksOnly(history, i, j);
      assert EndTime(history[i]) <= EndTime(history[j - 1]);
    }
  }

  // ---- The object ----

  datatype Snapshot = Snapshot(threshold: int, cooldown: int, consecutive: int, openUntil: Option<int>)

  class Circuit {
    var threshold: int
    var cooldown: int
    var consecutive: int
    var openUntil: Option<int>

    function View(): Breaker
      reads this
    {
      Breaker(threshold, cooldown, consecutive, openUntil)
    }

    constructor (threshold: int, cooldown: int)
      ensures View() == New(threshold, cooldown)
    {
      this.threshold := if threshold <= 0 then DEFAULT_THRESHOLD else threshold;
      this.cooldown := if cooldown <= 0 then DEFAULT_COOLDOWN else cooldown;
      consecutive := 0;
      openUntil := None;
    }

    method Open(now: int) returns (open: bool)
      ensures open == IsOpen(View(), now)
    {
      open := openUntil.Some? && now < openUntil.value;
    }

    method RecordBlock(checkedAt: int, openedAt: int) returns (tripped: bool, snap: Snapshot)
      modifies this
      ensures View() == AfterBlock(old(View()), openedAt)
      ensures tripped == BlockOpens(old(View()), checkedAt)
      ensures snap == Snapshot(threshold, cooldown, consecutive, openUntil)
    {
      consecutive := consecutive + 1;
      tripped := false;
      if consecutive >= threshold {
        var wasOpen := openUntil.Some? && checkedAt < openUntil.value;
        openUntil := Some(openedAt + cooldown);
        tripped := !wasOpen;
      }
      snap := Snapshot(threshold, cooldown, consecutive, openUntil);
    }

    method RecordSuccess(now: int) returns (closed: bool, snap: Snapshot)
      modifies this
      ensures View() == AfterSuccess(old(View()))
      ensures closed == IsOpen(old(View()), now)
      ensures snap == Snapshot(threshold, cooldown, 0, None)
    {
      closed := openUntil.Some? && now < openUntil.value;
      consecutive := 0;
      openUntil := None;
      snap := Snapshot(threshold, cooldown, consecutive, openUntil);
    }
  }
}
