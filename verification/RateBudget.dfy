/** The atomic fixed-window budget kept in Redis. */
module RateBudget {
  import opened Text

  /** A Redis counter with its expiry instant in milliseconds, if one is set. */
  datatype Cell = Absent | Counter(count: nat, expiresAt: Option<int>)

  datatype Budget = Budget(allowed: bool, remaining: nat, retryAfterMs: int)

  datatype TakeResult = Taken(budget: Budget) | INVALID_RATE_POLICY

  /** Redis drops a key once the clock has passed its expiry. */
  function Live(c: Cell, now: int): Cell {
    if c.Counter? && c.expiresAt.Some? && now > c.expiresAt.value then Absent else c
  }

  /** The CONSUME script: the counter and expiry it leaves. */
  function Consume(c: Cell, now: int, window: nat): (r: Cell)
    ensures r.Counter? && r.count >= 1 && r.expiresAt.Some? && now <= r.expiresAt.value
  {
    var live := Live(c, now);
    var count := if live.Absent? then 1 else live.count + 1;
    var expiry := if count == 1 then Some(now + window) else live.expiresAt;
    if expiry.None? || expiry.value - now < 0 then Counter(count, Some(now + window)) else Counter(count, expiry)
  }

  // ------------------------------------------------------------ a run of takes

  predicate NonDecreasing(last: int, times: seq<int>)
    decreases times
  {
    times == [] || (last <= times[0] && NonDecreasing(times[0], times[1..]))
  }

  /** How many of the takes at `times` are allowed and fall in `[from, to)`. */
  function AllowedIn(c: Cell, times: seq<int>, limit: nat, window: nat, from: int, to: int): nat
    decreases times
  {
    if times == [] then 0
    else
      var c' := Consume(c, times[0], window);
      (if c'.count <= limit && from <= times[0] < to then 1 else 0) + AllowedIn(c', times[1..], limit, window, from, to)
  }

  function Min(a: int, b: int): int {
    if a <= b then a else b
  }

  /**
   * What a prefix of the run has used up of the interval `[a, a + window)`: `used` takes
   * were allowed in it, the last one no later than `last`, and the counter is now `c`.
   */
  ghost predicate Spent(c: Cell, last: int, limit: nat, window: nat, a: int, used: int) {
    && 0 <= used <= 2 * limit - 1
    && (last < a ==> used == 0)
    && (c.Absent? || c.expiresAt.None? ==> used == 0)
    && (c.Counter? ==> c.count >= 1)
    && (c.Counter? && c.expiresAt.Some? && used > 0 ==> last <= c.expiresAt.value)
    && (c.Counter? && c.expiresAt.Some? && last < a + window ==>
          var start := c.expiresAt.value - window;
          if start < a then used <= Min(c.count, limit) - 1
          else if start == a then used <= Min(c.count, limit)
          else used <= limit - 1 + Min(c.count, limit))
  }

  lemma {:induction false} SpentBounds(c: Cell, last: int, times: seq<int>, limit: nat, window: nat, a: int, used: int)
    requires limit >= 1 && NonDecreasing(last, times) && Spent(c, last, limit, window, a, used)
    ensures used + AllowedIn(c, times, limit, window, a, a + window) <= 2 * limit - 1
    decreases times
  {
    if times != [] {
      var c' := Consume(c, times[0], window);
      var one := if c'.count <= limit && a <= times[0] < a + window then 1 else 0;
      SpentBounds(c', times[0], times[1..], limit, window, a, used + one);
    }
  }

  /**
   * For one key with a fixed limit and window and a clock that never runs backwards: no
   * half-open interval as long as the window ever admits more than 2 * limit - 1 takes.
   */
  lemma SlidingBound(c: Cell, start: int, times: seq<int>, limit: nat, window: nat, a: int)
    requires limit >= 1 && NonDecreasing(start, times) && (c.Counter? ==> c.count >= 1)
    ensures AllowedIn(c, times, limit, window, a, a + window) <= 2 * limit - 1
  {
    SpentBounds(c, start, times, limit, window, a, 0);
  }

  predicate Within(times: seq<int>, end: int) {
    forall i :: 0 <= i < |times| ==> times[i] <= end
  }

  /** Inside one window exactly the takes up to the limit are allowed, no fewer. */
  lemma {:induction false} WindowAllowsExactlyLimit(c: Cell, last: int, times: seq<int>, limit: nat, window: nat, from: int, to: int)
    requires c.Counter? && c.count >= 1 && c.expiresAt.Some? && Within(times, c.expiresAt.value)
    requires NonDecreasing(last, times) && from <= last && c.expiresAt.value < to
    ensures AllowedIn(c, times, limit, window, from, to) == Min(|times|, if c.count <= limit then limit - c.count else 0)
    decreases times
  {
    if times != [] {
      var c' := Consume(c, times[0], window);
      assert c' == Counter(c.count + 1, c.expiresAt);
      WindowAllowsExactlyLimit(c', times[0], times[1..], limit, window, from, to);
    }
  }

  /** The first take opens the window: of all takes until it expires, exactly `limit` are allowed. */
  lemma FreshWindow(times: seq<int>, limit: nat, window: nat)
    requires limit >= 1 && times != [] && NonDecreasing(times[0], times) && Within(times, times[0] + window)
    ensures AllowedIn(Absent, times, limit, window, times[0], times[0] + window + 1) == Min(|times|, limit)
  {
    var c := Consume(Absent, times[0], window);
    WindowAllowsExactlyLimit(c, times[0], times[1..], limit, window, times[0], times[0] + window + 1);
  }

  /**
   * A counter that lost its expiry gets one with the next take and keeps its count: until
   * that expiry only what is left of the limit is allowed.
   */
  lemma LostExpiryKeepsCount(c: Cell, times: seq<int>, limit: nat, window: nat)
    requires c.Counter? && c.count >= 1 && c.expiresAt.None?
    requires times != [] && NonDecreasing(times[0], times) && Within(times, times[0] + window)
    ensures AllowedIn(c, times, limit, window, times[0], times[0] + window + 1) == Min(|times|, if c.count <= limit then limit - c.count else 0)
  {
    var c' := Consume(c, times[0], window);
    assert c' == Counter(c.count + 1, Some(times[0] + window));
    WindowAllowsExactlyLimit(c', times[0], times[1..], limit, window, times[0], times[0] + window + 1);
  }

  function Burst(t: int, n: nat): (r: seq<int>)
    ensures |r| == n && forall i :: 0 <= i < n ==> r[i] == t
  {
    seq(n, _ => t)
  }

  lemma {:induction false} BurstInWindow(c: Cell, t: int, n: nat, rest: seq<int>, limit: nat, window: nat, a: int)
    requires c.Counter? && c.count >= 1 && c.expiresAt.Some? && t <= c.expiresAt.value && a <= t < a + window && c.count + n <= limit
    ensures AllowedIn(c, Burst(t, n) + rest, limit, window, a, a + window)
         == n + AllowedIn(Counter(c.count + n, c.expiresAt), rest, limit, window, a, a + window)
    decreases n
  {
    if n == 0 {
      assert Burst(t, n) + rest == rest;
    } else {
      assert (Burst(t, n) + rest)[0] == t && (Burst(t, n) + rest)[1..] == Burst(t, n - 1) + rest;
      BurstInWindow(Counter(c.count + 1, c.expiresAt), t, n - 1, rest, limit, window, a);
    }
  }

  lemma {:induction false} BurstNonDecreasing(last: int, t: int, n: nat, rest: seq<int>)
    requires last <= t && NonDecreasing(t, rest)
    ensures NonDecreasing(last, Burst(t, n) + rest)
    decreases n
  {
    if n == 0 {
      assert Burst(t, n) + rest == rest;
    } else {
      assert (Burst(t, n) + rest)[0] == t && (Burst(t, n) + rest)[1..] == Burst(t, n - 1) + rest;
      BurstNonDecreasing(t, t, n - 1, rest);
    }
  }

  lemma OneTake(c: Cell, t: int, rest: seq<int>, limit: nat, window: nat, a: int)
    ensures var c' := Consume(c, t, window);
      AllowedIn(c, [t] + rest, limit, window, a, a + window)
      == (if c'.count <= limit && a <= t < a + window then 1 else 0) + AllowedIn(c', rest, limit, window, a, a + window)
  {
    assert ([t] + rest)[1..] == rest;
  }

  /** A take at 0, a burst at the very end of its window, and a fresh window at once. */
  function EndToStart(limit: nat, window: nat): seq<int>
    requires limit >= 1
  {
    [0] + (Burst(window, limit - 1) + AtOnce(limit, window))
  }

  function AtOnce(limit: nat, window: nat): seq<int>
    requires limit >= 1
  {
    [window + 1] + (Burst(window + 1, limit - 1) + [])
  }

  lemma EndToStartOrdered(limit: nat, window: nat)
    requires limit >= 1
    ensures NonDecreasing(0, EndToStart(limit, window))
  {
    var tail := AtOnce(limit, window);
    BurstNonDecreasing(window + 1, window + 1, limit - 1, []);
    assert tail[1..] == Burst(window + 1, limit - 1) + [];
    BurstNonDecreasing(0, window, limit - 1, tail);
    assert EndToStart(limit, window)[1..] == Burst(window, limit - 1) + tail;
  }

  /** The bound is reached: spend a window at its very end, then a fresh one at once. */
  lemma SlidingBoundIsTight(limit: nat, window: nat) returns (times: seq<int>)
    requires limit >= 1 && window >= 2
    ensures NonDecreasing(0, times)
    ensures AllowedIn(Absent, times, limit, window, window, window + window) == 2 * limit - 1
  {
    times := EndToStart(limit, window);
    EndToStartOrdered(limit, window);
    OneTake(Absent, 0, Burst(window, limit - 1) + AtOnce(limit, window), limit, window, window);
    BurstInWindow(Counter(1, Some(window)), window, limit - 1, AtOnce(limit, window), limit, window, window);
    OneTake(Counter(limit, Some(window)), window + 1, Burst(window + 1, limit - 1) + [], limit, window, window);
    BurstInWindow(Counter(1, Some(window + 1 + window)), window + 1, limit - 1, [], limit, window, window);
  }

  /** Once the limit is used up, the next take is allowed if and only if it comes after the expiry. */
  lemma AllowedAgainIff(c: Cell, limit: nat, window: nat, now: int)
    requires limit >= 1 && c.Counter? && c.count >= limit && c.expiresAt.Some?
    ensures Consume(c, now, window).count <= limit <==> now > c.expiresAt.value
  {
  }

  /** The least wait: however many takes are refused meanwhile, none before the expiry is allowed, and the first after it is. */
  lemma {:induction false} RefusedUntilExpiry(c: Cell, last: int, times: seq<int>, limit: nat, window: nat, from: int, to: int)
    requires limit >= 1 && c.Counter? && c.count >= limit && c.expiresAt.Some? && NonDecreasing(last, times)
    ensures Within(times, c.expiresAt.value) ==> AllowedIn(c, times, limit, window, from, to) == 0
    ensures times != [] && Within(times[..|times| - 1], c.expiresAt.value) && times[|times| - 1] > c.expiresAt.value && from <= times[|times| - 1] < to ==>
            AllowedIn(c, times, limit, window, from, to) == 1
    decreases times
  {
    if times != [] {
      var c' := Consume(c, times[0], window);
      AllowedAgainIff(c, limit, window, times[0]);
      if times[0] <= c.expiresAt.value {
        assert c' == Counter(c.count + 1, c.expiresAt);
        RefusedUntilExpiry(c', times[0], times[1..], limit, window, from, to);
        assert |times| > 1 ==> times[1..][|times| - 2] == times[|times| - 1];
        assert |times| > 1 ==> times[1..][..|times| - 2] == times[..|times| - 1][1..];
      } else if |times| == 1 {
        assert times[1..] == [];
      } else {
        assert times[..|times| - 1][0] == times[0];
      }
    }
  }

  // ------------------------------------------------------------ the budget object

  predicate ValidScope(scope: Text) {
    1 <= |scope| <= 48 && forall i :: 0 <= i < |scope| ==> 97 <= scope[i] <= 122 || scope[i] == 45
  }

  predicate ValidPolicy(scope: Text, subject: Text, limit: int, windowMs: int) {
    ValidScope(scope) && 1 <= |subject| <= 512 && 1 <= limit <= 10_000 && 1_000 <= windowMs <= 86_400_000
  }

  /** After this wait the window is over and the key dropped. */
  predicate GoneAfter(c: Cell, now: int, wait: nat) {
    Live(c, now + wait) == Absent
  }

  /** Keys are the keyed digest of scope and subject, taken to be free of collisions. */
  datatype Key = Key(scope: Text, subject: Text)

  class RedisRateBudget {
    var cells: map<Key, Cell>

    constructor ()
      ensures cells == map[]
    {
      cells := map[];
    }

    ghost function CellOf(k: Key): Cell
      reads this
    {
      if k in cells then cells[k] else Absent
    }

    /**
     * One atomic take at `now`: a refused policy consumes nothing, and no other key is touched.
     * The advised wait is the least one past which the window is over.
     */
    method Take(scope: Text, subject: Text, limit: int, windowMs: int, now: int) returns (r: TakeResult)
      modifies this
      ensures r.INVALID_RATE_POLICY? <==> !ValidPolicy(scope, subject, limit, windowMs)
      ensures r.INVALID_RATE_POLICY? ==> cells == old(cells)
      ensures r.Taken? ==>
        var k := Key(scope, subject);
        && CellOf(k) == Consume(old(CellOf(k)), now, windowMs)
        && (forall j :: j != k ==> CellOf(j) == old(CellOf(j)))
        && (r.budget.allowed <==> CellOf(k).count <= limit)
        && (r.budget.allowed ==> r.budget.remaining + CellOf(k).count == limit)
        && (!r.budget.allowed ==> r.budget.remaining == 0)
        && r.budget.retryAfterMs >= 0
        && (forall wait: nat :: GoneAfter(CellOf(k), now, wait) <==> wait > r.budget.retryAfterMs)
    {
      if !ValidPolicy(scope, subject, limit, windowMs) { return INVALID_RATE_POLICY; }
      var k := Key(scope, subject);
      var before := if k in cells then cells[k] else Absent;
      var c := Consume(before, now, windowMs);
      cells := cells[k := c];
      r := Taken(Budget(c.count <= limit, if c.count <= limit then limit - c.count else 0, c.expiresAt.value - now));
    }
  }
}
