/**
  The provider refresh interval of a polled workload (src/worker/call-budget.ts), against
  the TTL cache it summarises.
*/
module CallBudget {
  import opened Common
  import opened ProviderCache

  /** Ceiling of a quotient with a positive divisor. */
  function CeilDiv(a: int, b: int): int
    requires 0 < b
  {
    -((-a) / b)
  }

  function RefreshIntervalSeconds(tickSeconds: int, ttlSeconds: int): Result<int> {
    if tickSeconds <= 0 then Err("tickSeconds must be positive")
    else if ttlSeconds <= tickSeconds then Ok(tickSeconds)
    else Ok(tickSeconds * CeilDiv(ttlSeconds, tickSeconds))
  }

  // ------------------------------------------------------------ simulation

  const KEY := "polled"

  function PollTime(tickSeconds: int, n: nat): int { n * tickSeconds * 1_000 }

  /** The cache after polls 0 .. n-1, one every tick, each miss answered at once. */
  function CacheBefore(tickSeconds: int, ttlSeconds: int, n: nat): Entries<string, int> {
    if n == 0 then map[]
    else
      var entries := CacheBefore(tickSeconds, ttlSeconds, n - 1);
      var now := PollTime(tickSeconds, n - 1);
      if Lookup(entries, KEY, now).Some? then entries
      else Stored(entries, true, KEY, n - 1, ttlSeconds, now)
  }

  /** Poll `n` finds nothing live in the cache and goes to the provider. */
  predicate HitsProvider(tickSeconds: int, ttlSeconds: int, n: nat) {
    Lookup(CacheBefore(tickSeconds, ttlSeconds, n), KEY, PollTime(tickSeconds, n)).None?
  }

  // ----------------------------------------------------------------- proof

  lemma CeilDivBounds(a: int, b: int)
    requires 0 < b
    ensures (CeilDiv(a, b) - 1) * b < a <= CeilDiv(a, b) * b
  {
    var d := (-a) / b;
    assert -a == b * d + (-a) % b;
    assert (-d - 1) * b == -(d * b) - b;
    assert (-d) * b == -(d * b);
  }

  lemma FewerTicksFallShort(tickSeconds: int, ttlSeconds: int, r: int, q: int)
    requires 0 < tickSeconds && r < q && (q - 1) * tickSeconds < ttlSeconds
    ensures r * tickSeconds < ttlSeconds
  {
    MulOrder(r, q - 1, tickSeconds);
  }

  lemma CeilDivPositive(a: int, b: int)
    requires 0 < b && 0 < a
    ensures 1 <= CeilDiv(a, b)
  {
    CeilDivBounds(a, b);
    if CeilDiv(a, b) < 1 {
      AtMostNothing(CeilDiv(a, b), b);
    }
  }

  lemma AtMostNothing(q: int, b: int)
    requires q <= 0 && 0 < b
    ensures q * b <= 0
  {}

  /** Ticks per refresh. */
  function TicksPerRefresh(tickSeconds: int, ttlSeconds: int): (q: int)
    requires 0 < tickSeconds
    ensures 1 <= q
  {
    if ttlSeconds <= tickSeconds then 1
    else
      CeilDivPositive(ttlSeconds, tickSeconds);
      CeilDiv(ttlSeconds, tickSeconds)
  }

  lemma TicksPerRefreshIs(tickSeconds: int, ttlSeconds: int, r: int)
    requires 0 < tickSeconds
    ensures var q := TicksPerRefresh(tickSeconds, ttlSeconds);
            ttlSeconds <= q * tickSeconds && (1 <= r < q ==> r * tickSeconds < ttlSeconds)
  {
    if tickSeconds < ttlSeconds {
      var q := CeilDiv(ttlSeconds, tickSeconds);
      CeilDivBounds(ttlSeconds, tickSeconds);
      if r < q {
        FewerTicksFallShort(tickSeconds, ttlSeconds, r, q);
      }
    }
  }

  lemma NextInCycle(n: nat, q: int)
    requires 1 <= q
    ensures (n + 1) % q == if n % q + 1 == q then 0 else n % q + 1
  {
    var d, r := n / q, n % q;
    assert n + 1 == d * q + (r + 1);
    if r + 1 == q {
      assert n + 1 == (d + 1) * q + 0;
      ModUnique(n + 1, q, d + 1, 0);
    } else {
      ModUnique(n + 1, q, d, r + 1);
    }
  }

  lemma Distribute(x: int, y: int, q: int)
    ensures (x - y) * q == x * q - y * q
  {}

  lemma AtLeastOnce(k: int, q: int)
    requires 1 <= k && 1 <= q
    ensures q <= k * q
  {
    assert 0 <= (k - 1) * q;
  }

  lemma ModUnique(n: int, q: int, d: int, r: int)
    requires 1 <= q && n == d * q + r && 0 <= r < q
    ensures n % q == r && n / q == d
  {
    var d' := n / q;
    Distribute(d, d', q);
    Distribute(d', d, q);
    if d > d' {
      AtLeastOnce(d - d', q);
    } else if d < d' {
      AtLeastOnce(d' - d, q);
    }
  }

  lemma NextTick(tickSeconds: int, n: nat, r: int)
    ensures PollTime(tickSeconds, n + 1) - (r + 1) * tickSeconds * 1_000 == PollTime(tickSeconds, n) - r * tickSeconds * 1_000
  {
    Distribute(n + 1, r + 1, tickSeconds);
    Distribute(n, r, tickSeconds);
  }

  /** Polls since the last refresh at poll `n`, and when the entry written there expires. */
  ghost predicate InCycle(tickSeconds: int, ttlSeconds: int, n: nat, r: int) {
    var entries := CacheBefore(tickSeconds, ttlSeconds, n);
    && KEY in entries
    && entries[KEY].expiresAt == PollTime(tickSeconds, n) - r * tickSeconds * 1_000 + ttlSeconds * 1_000
  }

  lemma CycleAdvances(tickSeconds: int, ttlSeconds: int, n: nat, r: int)
    requires 0 < tickSeconds && 0 <= r
    requires HitsProvider(tickSeconds, ttlSeconds, n) <==> r == 0
    requires r != 0 ==> InCycle(tickSeconds, ttlSeconds, n, r)
    ensures HitsProvider(tickSeconds, ttlSeconds, n + 1) <==> ttlSeconds <= (r + 1) * tickSeconds
    ensures (r + 1) * tickSeconds < ttlSeconds ==> InCycle(tickSeconds, ttlSeconds, n + 1, r + 1)
  {
    NextTick(tickSeconds, n, r);
    var next := PollTime(tickSeconds, n + 1);
    var behind := (r + 1) * tickSeconds;
    assert r == 0 ==> behind == tickSeconds;
    assert (r + 1) * tickSeconds * 1_000 == behind * 1_000;
    assert r * tickSeconds >= 0;
    assert behind == r * tickSeconds + tickSeconds;
  }

  /** Between two refreshes the cache holds the entry written at the last one. */
  lemma {:induction false} CycleState(tickSeconds: int, ttlSeconds: int, n: nat)
    requires 0 < tickSeconds
    ensures HitsProvider(tickSeconds, ttlSeconds, n) <==> n % TicksPerRefresh(tickSeconds, ttlSeconds) == 0
    ensures var r := n % TicksPerRefresh(tickSeconds, ttlSeconds); r != 0 ==> InCycle(tickSeconds, ttlSeconds, n, r)
    decreases n
  {
    var q := TicksPerRefresh(tickSeconds, ttlSeconds);
    if n == 0 {
      assert 0 % q == 0;
    } else {
      CycleState(tickSeconds, ttlSeconds, n - 1);
      NextInCycle(n - 1, q);
      CycleAdvances(tickSeconds, ttlSeconds, n - 1, (n - 1) % q);
      TicksPerRefreshIs(tickSeconds, ttlSeconds, (n - 1) % q + 1);
    }
  }

  lemma ScaledMultiple(n: nat, q: int, tick: int)
    requires 1 <= q && 0 < tick
    ensures 0 < tick * q
    ensures (n * tick) % (tick * q) == 0 <==> n % q == 0
  {
    var d, r := n / q, n % q;
    assert 0 < tick * q;
    assert n * tick == d * (tick * q) + r * tick by {
      assert n == d * q + r;
      assert (d * q + r) * tick == d * q * tick + r * tick;
      assert d * q * tick == d * (tick * q) by {
        assert q * tick == tick * q;
      }
    }
    assert 0 <= r * tick < tick * q by {
      assert 0 <= r * tick;
      assert 0 < (q - r) * tick;
    }
    ModUnique(n * tick, tick * q, d, r * tick);
    assert r * tick == 0 <==> r == 0;
  }

  /**
    The closed form is the simulation: polled every `tickSeconds`, the provider is called
    exactly at the instants that are multiples of the refresh interval.
  */
  lemma ClosedFormRefinesPolling(tickSeconds: int, ttlSeconds: int, n: nat)
    requires 0 < tickSeconds
    ensures var interval := RefreshIntervalSeconds(tickSeconds, ttlSeconds);
            && interval.Ok? && 0 < interval.value
            && (HitsProvider(tickSeconds, ttlSeconds, n) <==> (n * tickSeconds) % interval.value == 0)
  {
    var q := TicksPerRefresh(tickSeconds, ttlSeconds);
    CycleState(tickSeconds, ttlSeconds, n);
    ScaledMultiple(n, q, tickSeconds);
    assert RefreshIntervalSeconds(tickSeconds, ttlSeconds) == Ok(tickSeconds * q);
  }
}
