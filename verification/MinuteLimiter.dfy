/**
  The per-minute provider rate limiter (src/worker/minute-limiter.ts).

  Time is an integer number of milliseconds. The sliding-window estimate
  `previous * (1 - elapsed / 60000) + current` is kept scaled by 60000, so that it
  stays an integer; a class ceiling C is compared as C * 60000.
*/
module MinuteLimiter {
  import opened Common

  const MINUTE_MS: int := 60_000
  const BUCKET_TTL_SECONDS: int := 120

  datatype Priority = Live | NearLive | Background

  datatype Caps = Caps(live: int, nearLive: int, background: int) {
    function Of(p: Priority): int {
      match p
      case Live => live
      case NearLive => nearLive
      case Background => background
    }

    predicate Valid() {
      0 < background <= nearLive <= live
    }
  }

  function ValidateMinuteCaps(caps: Caps): (r: Result<Caps>)
    ensures r.Ok? <==> caps.Valid()
    ensures r.Ok? ==> 1 <= caps.Of(Background) <= caps.Of(NearLive) <= caps.Of(Live)
  {
    if caps.live <= 0 || caps.nearLive <= 0 || caps.background <= 0 then
      Err("Provider minute cap must be a positive integer")
    else if caps.background > caps.nearLive || caps.nearLive > caps.live then
      Err("Provider minute caps must be ordered background <= near-live <= live")
    else
      Ok(caps)
  }

  function Minute(now: int): int { now / MINUTE_MS }

  function Elapsed(now: int): int { now % MINUTE_MS }

  // ---------------------------------------------------------------- store

  datatype Bucket = Bucket(count: int, expiresAt: int)

  /** Buckets by epoch minute; the key prefix (namespace, provider) is fixed per limiter. */
  type Buckets = map<int, Bucket>

  function ReadBucket(b: Buckets, key: int, now: int): int {
    if key in b && b[key].expiresAt > now then b[key].count else 0
  }

  function Swept(b: Buckets, now: int): Buckets {
    map k | k in b && b[k].expiresAt > now :: b[k]
  }

  /** A sweep that has still to visit the keys in `left`. */
  ghost function PartlySwept(b: Buckets, left: set<int>, now: int): Buckets {
    map k | k in b && (k in left || b[k].expiresAt > now) :: b[k]
  }

  function Incremented(b: Buckets, key: int, delta: int, now: int, ttlSeconds: int): Buckets {
    Swept(b, now)[key := Bucket(Max0(ReadBucket(b, key, now) + delta), now + ttlSeconds * 1_000)]
  }

  class InMemoryMinuteCounterStore {
    var entries: Buckets

    constructor ()
      ensures entries == map[]
    {
      entries := map[];
    }

    method Sweep(now: int)
      modifies this
      ensures entries == Swept(old(entries), now)
      ensures forall k :: k in entries <==> k in old(entries) && now < old(entries)[k].expiresAt
      ensures forall k :: k in entries ==> entries[k] == old(entries)[k]
    {
      ghost var was := entries;
      var left := entries.Keys;
      while left != {}
        invariant left <= was.Keys
        invariant entries == PartlySwept(was, left, now)
        decreases |left|
      {
        var key := Pick(left);
        if entries[key].expiresAt <= now {
          entries := entries - {key};
        }
        left := left - {key};
      }
    }

    method Increment(key: int, delta: int, ttlSeconds: int, now: int) returns (total: int)
      modifies this
      ensures entries == Incremented(old(entries), key, delta, now, ttlSeconds)
      ensures total == Max0(ReadBucket(old(entries), key, now) + delta)
    {
      Sweep(now);
      total := Max0((if key in entries && entries[key].expiresAt > now then entries[key].count else 0) + delta);
      entries := entries[key := Bucket(total, now + ttlSeconds * 1_000)];
    }

    method Read(key: int, now: int) returns (total: int)
      ensures total == ReadBucket(entries, key, now)
    {
      if key !in entries || entries[key].expiresAt <= now {
        return 0;
      }
      return entries[key].count;
    }
  }

  // -------------------------------------------------------------- limiter

  datatype DenyReason = MinuteCap | ProviderMinuteHeader | StoreUnavailable

  /** Which call to the counter store throws, if any. A failing call writes nothing. */
  datatype StoreFault = NoFault | ReadFails | IncrementFails | RefundFails

  datatype AcquireResult = AcquireResult(
    allowed: bool,
    priority: Priority,
    epochMinute: int,
    estimateScaled: int,
    ceiling: int,
    reason: Option<DenyReason>,
    failOpen: bool,
    msUntilNextMinute: int,
    retryAfterMs: Option<int>)

  datatype RemoteMinute = RemoteMinute(epochMinute: int, remaining: int)

  datatype LimiterState = LimiterState(buckets: Buckets, remote: Option<RemoteMinute>)

  /** The sliding-window estimate, scaled by 60000. */
  function Weighted(previous: int, current: int, elapsed: int): int {
    previous * (MINUTE_MS - elapsed) + current * MINUTE_MS
  }

  function MsUntilNextMinute(now: int): int { (Minute(now) + 1) * MINUTE_MS - now }

  /**
    Time until one more call of the class fits, if nothing else is spent. `ceil(1 - a / b)`
    over fractions of a minute becomes `60000 - floor(60000 * a / b)` in milliseconds.
  */
  function RetryAfterMs(previous: int, current: int, ceiling: int, elapsed: int, msUntilNextMinute: int): int {
    var room := ceiling - current - 1;
    if previous > 0 && room > 0 then
      Max0(MINUTE_MS - MINUTE_MS * room / previous - elapsed)
    else if current <= 0 then
      msUntilNextMinute
    else
      msUntilNextMinute + Max0(MINUTE_MS - MINUTE_MS * (ceiling - 1) / current)
  }

  predicate HeaderExhausted(st: LimiterState, headerReserve: int, epochMinute: int) {
    st.remote.Some? && st.remote.value.epochMinute == epochMinute && st.remote.value.remaining <= headerReserve
  }

  function FailPolicy(p: Priority, now: int, ceiling: int): AcquireResult {
    AcquireResult(p != Background, p, Minute(now), 0, ceiling,
                  if p == Background then Some(StoreUnavailable) else None,
                  true, MsUntilNextMinute(now), None)
  }

  function HeaderDenied(p: Priority, now: int, ceiling: int): AcquireResult {
    AcquireResult(false, p, Minute(now), 0, ceiling, Some(ProviderMinuteHeader), false,
                  MsUntilNextMinute(now), Some(MsUntilNextMinute(now)))
  }

  /** The test an incremented bucket is put to; `current` includes the call itself. */
  predicate OverCeiling(previous: int, current: int, now: int, ceiling: int) {
    Weighted(previous, current, Elapsed(now)) > ceiling * MINUTE_MS
  }

  function CapDenied(p: Priority, now: int, ceiling: int, previous: int, current: int): AcquireResult {
    AcquireResult(false, p, Minute(now), Weighted(previous, current, Elapsed(now)) - MINUTE_MS, ceiling, Some(MinuteCap), false,
                  MsUntilNextMinute(now), Some(RetryAfterMs(previous, current - 1, ceiling, Elapsed(now), MsUntilNextMinute(now))))
  }

  function Admitted(p: Priority, now: int, ceiling: int, previous: int, current: int): AcquireResult {
    AcquireResult(true, p, Minute(now), Weighted(previous, current, Elapsed(now)), ceiling, None, false, MsUntilNextMinute(now), None)
  }

  function Acquire(st: LimiterState, caps: Caps, headerReserve: int, p: Priority, now: int, fault: StoreFault)
    : (LimiterState, AcquireResult)
  {
    var m := Minute(now);
    var ceiling := caps.Of(p);
    if p == Background && HeaderExhausted(st, headerReserve, m) then (st, HeaderDenied(p, now, ceiling))
    else if fault == ReadFails || fault == IncrementFails then (st, FailPolicy(p, now, ceiling))
    else
      var previous := ReadBucket(st.buckets, m - 1, now);
      var taken := Incremented(st.buckets, m, 1, now, BUCKET_TTL_SECONDS);
      var current := ReadBucket(taken, m, now);
      if OverCeiling(previous, current, now, ceiling) then
        if fault == RefundFails then (st.(buckets := taken), FailPolicy(p, now, ceiling))
        else
          (st.(buckets := Incremented(taken, m, -1, now, BUCKET_TTL_SECONDS)), CapDenied(p, now, ceiling, previous, current))
      else (st.(buckets := taken), Admitted(p, now, ceiling, previous, current))
  }

  /** Giving a token back; denied and fail-open results hold none. */
  function Released(st: LimiterState, r: AcquireResult, now: int): LimiterState {
    if !r.allowed || r.failOpen then st
    else st.(buckets := Incremented(st.buckets, r.epochMinute, -1, now, BUCKET_TTL_SECONDS))
  }

  function Observed(st: LimiterState, remaining: Option<int>, now: int): LimiterState {
    if remaining.None? then st
    else st.(remote := Some(RemoteMinute(Minute(now), remaining.value)))
  }

  class ProviderMinuteLimiter {
    const store: InMemoryMinuteCounterStore
    const caps: Caps
    const headerReserve: int
    var remoteMinute: Option<RemoteMinute>

    ghost function State(): LimiterState
      reads this, store
    {
      LimiterState(store.entries, remoteMinute)
    }

    constructor (store: InMemoryMinuteCounterStore, caps: Caps, headerReserve: int)
      requires caps.Valid()
      ensures this.store == store && this.caps == caps && this.headerReserve == headerReserve
      ensures State() == LimiterState(store.entries, None)
    {
      this.store := store;
      this.caps := caps;
      this.headerReserve := headerReserve;
      this.remoteMinute := None;
    }

    method TryAcquire(p: Priority, now: int, fault: StoreFault) returns (r: AcquireResult)
      modifies store
      ensures (State(), r) == Acquire(old(State()), caps, headerReserve, p, now, fault)
      ensures r.reason == Some(ProviderMinuteHeader) <==>
                p == Background && remoteMinute.Some? && remoteMinute.value.epochMinute == now / 60_000 && remoteMinute.value.remaining <= headerReserve
      ensures r.failOpen ==> fault != NoFault && r.allowed == (p != Background) && r.reason == (if p == Background then Some(StoreUnavailable) else None)
      ensures fault == ReadFails || fault == IncrementFails ==> r.failOpen || r.reason == Some(ProviderMinuteHeader)
    {
      var epochMinute := Minute(now);
      var ceiling := caps.Of(p);
      var untilNext := MsUntilNextMinute(now);
      if p == Background && remoteMinute.Some? && remoteMinute.value.epochMinute == epochMinute
         && remoteMinute.value.remaining <= headerReserve {
        return AcquireResult(false, p, epochMinute, 0, ceiling, Some(ProviderMinuteHeader), false, untilNext, Some(untilNext));
      }
      if fault == ReadFails {
        return FailPolicy(p, now, ceiling);
      }
      var previous := store.Read(epochMinute - 1, now);
      if fault == IncrementFails {
        return FailPolicy(p, now, ceiling);
      }
      var current := store.Increment(epochMinute, 1, BUCKET_TTL_SECONDS, now);
      var estimate := Weighted(previous, current, Elapsed(now));
      if estimate > ceiling * MINUTE_MS {
        if fault == RefundFails {
          return FailPolicy(p, now, ceiling);
        }
        var _ := store.Increment(epochMinute, -1, BUCKET_TTL_SECONDS, now);
        return AcquireResult(false, p, epochMinute, estimate - MINUTE_MS, ceiling, Some(MinuteCap), false, untilNext,
                             Some(RetryAfterMs(previous, current - 1, ceiling, Elapsed(now), untilNext)));
      }
      return AcquireResult(true, p, epochMinute, estimate, ceiling, None, false, untilNext, None);
    }

    method Release(acquired: AcquireResult, now: int)
      modifies store
      ensures State() == Released(old(State()), acquired, now)
    {
      if !acquired.allowed || acquired.failOpen {
        return;
      }
      var _ := store.Increment(acquired.epochMinute, -1, BUCKET_TTL_SECONDS, now);
    }

    method ObserveProviderMinute(remaining: Option<int>, now: int)
      modifies this
      ensures State() == Observed(old(State()), remaining, now)
      ensures remoteMinute == if remaining.Some? then Some(RemoteMinute(now / 60_000, remaining.value)) else old(remoteMinute)
    {
      if remaining.None? {
        return;
      }
      remoteMinute := Some(RemoteMinute(Minute(now), remaining.value));
    }
  }

  // ------------------------------------------------- what a bucket says later

  /**
    What every reachable store satisfies at time `now`: no bucket of a later minute, no
    negative count, and no bucket that expires before the end of the following minute.
    The last clause is what the 120 second TTL buys.
  */
  ghost predicate Tidy(b: Buckets, now: int) {
    forall k :: k in b ==> k * MINUTE_MS <= now && (k + 2) * MINUTE_MS <= b[k].expiresAt && 0 <= b[k].count
  }

  lemma IncrementTidy(b: Buckets, key: int, delta: int, now: int, clock: int)
    requires Tidy(b, clock) && clock <= now && key <= Minute(now)
    ensures Tidy(Incremented(b, key, delta, now, BUCKET_TTL_SECONDS), now)
  {}

  /** Reading any bucket, now or later, after an increment. */
  lemma ReadIncremented(b: Buckets, key: int, delta: int, now: int, k: int, t: int)
    requires now <= t
    ensures var after := Incremented(b, key, delta, now, BUCKET_TTL_SECONDS);
            ReadBucket(after, k, t) ==
              if k == key then (if t < now + BUCKET_TTL_SECONDS * 1_000 then Max0(ReadBucket(b, key, now) + delta) else 0)
              else ReadBucket(b, k, t)
  {}

  /** Inside its own minute and the next one, a tidy bucket keeps its count. */
  lemma ReadStable(b: Buckets, k: int, now: int, t: int)
    requires Tidy(b, now) && now <= t < (k + 2) * MINUTE_MS
    ensures ReadBucket(b, k, t) == ReadBucket(b, k, now)
  {}

  lemma NoLaterBucket(b: Buckets, k: int, now: int, t: int)
    requires Tidy(b, now) && Minute(now) < k
    ensures ReadBucket(b, k, t) == 0
  {}

  /** The estimate a reader at `t` would form before taking a token, scaled by 60000. */
  function Estimate(b: Buckets, t: int): int {
    Weighted(ReadBucket(b, Minute(t) - 1, t), ReadBucket(b, Minute(t), t), Elapsed(t))
  }

  lemma WeightedFallsWithinMinute(previous: int, current: int, e: int, f: int)
    requires 0 <= previous && 0 <= e <= f <= MINUTE_MS
    ensures Weighted(previous, current, f) <= Weighted(previous, current, e)
  {
    assert previous * (f - e) >= 0;
  }

  lemma WeightedFallsOverBoundary(previous: int, current: int, e: int, f: int)
    requires 0 <= previous && 0 <= current && 0 <= e <= MINUTE_MS && 0 <= f <= MINUTE_MS
    ensures 0 <= Weighted(current, 0, f) <= Weighted(previous, current, e)
  {
    assert 0 <= previous * (MINUTE_MS - e);
    assert 0 <= current * f;
    assert 0 <= current * (MINUTE_MS - f);
  }

  /**
    Between acquires the estimate only falls: inside a minute because the previous bucket
    decays, over a boundary because the current bucket becomes the decaying one, and after
    two boundaries because both buckets are gone.
  */
  lemma EstimateDecays(b: Buckets, now: int, t: int)
    requires Tidy(b, now) && now <= t
    ensures 0 <= Estimate(b, t) <= Estimate(b, now)
  {
    var m := Minute(now);
    var previous := ReadBucket(b, m - 1, now);
    var current := ReadBucket(b, m, now);
    WeightedFallsOverBoundary(previous, current, Elapsed(now), Elapsed(t));
    WeightedFallsOverBoundary(previous, current, Elapsed(now), MINUTE_MS);
    if Minute(t) == m {
      ReadStable(b, m - 1, now, t);
      ReadStable(b, m, now, t);
      WeightedFallsWithinMinute(previous, current, Elapsed(now), Elapsed(t));
      WeightedFallsOverBoundary(current, previous, 0, Elapsed(t));
    } else if Minute(t) == m + 1 {
      ReadStable(b, m, now, t);
      NoLaterBucket(b, m + 1, now, t);
    } else {
      NoLaterBucket(b, Minute(t), now, t);
      NoLaterBucket(b, Minute(t) - 1, now, t);
    }
  }

  /** Without faults, admission is exactly one comparison, and a denial leaves no trace in the counts. */
  lemma AcquireDecides(st: LimiterState, caps: Caps, reserve: int, p: Priority, now: int, clock: int)
    requires Tidy(st.buckets, clock) && clock <= now
    requires !(p == Background && HeaderExhausted(st, reserve, Minute(now)))
    ensures var (st', r) := Acquire(st, caps, reserve, p, now, NoFault);
            && Tidy(st'.buckets, now)
            && !r.failOpen && r.estimateScaled == Estimate(st.buckets, now) + (if r.allowed then MINUTE_MS else 0)
            && (r.allowed <==> Estimate(st.buckets, now) + MINUTE_MS <= caps.Of(p) * MINUTE_MS)
            && (r.allowed ==> Estimate(st'.buckets, now) == Estimate(st.buckets, now) + MINUTE_MS)
            && (!r.allowed ==> r.reason == Some(MinuteCap)
                               && forall k, t :: now <= t < (k + 2) * MINUTE_MS ==> ReadBucket(st'.buckets, k, t) == ReadBucket(st.buckets, k, t))
            && (r.allowed ==> forall k, t :: now <= t < (k + 2) * MINUTE_MS ==>
                                ReadBucket(st'.buckets, k, t) == ReadBucket(st.buckets, k, t) + if k == Minute(now) then 1 else 0)
  {
    var m := Minute(now);
    var taken := Incremented(st.buckets, m, 1, now, BUCKET_TTL_SECONDS);
    IncrementTidy(st.buckets, m, 1, now, clock);
    IncrementTidy(taken, m, -1, now, now);
    forall k, t | now <= t
      ensures ReadBucket(taken, k, t) ==
              if k == m then (if t < now + BUCKET_TTL_SECONDS * 1_000 then Max0(ReadBucket(st.buckets, m, now) + 1) else 0)
              else ReadBucket(st.buckets, k, t)
    {
      ReadIncremented(st.buckets, m, 1, now, k, t);
    }
    forall k, t | now <= t
      ensures ReadBucket(Incremented(taken, m, -1, now, BUCKET_TTL_SECONDS), k, t) ==
              if k == m then (if t < now + BUCKET_TTL_SECONDS * 1_000 then Max0(ReadBucket(taken, m, now) - 1) else 0)
              else ReadBucket(taken, k, t)
    {
      ReadIncremented(taken, m, -1, now, k, t);
    }
  }

  /** What every answer says of the call; only a counted token raises a bucket, which then lives 120 seconds more. */
  lemma AnswerSays(st: LimiterState, caps: Caps, reserve: int, p: Priority, now: int, fault: StoreFault)
    ensures var (after, r) := Acquire(st, caps, reserve, p, now, fault);
            && r.priority == p && r.ceiling == caps.Of(p) && r.epochMinute == now / 60_000
            && r.msUntilNextMinute == (now / 60_000 + 1) * 60_000 - now
            && (r.reason == Some(ProviderMinuteHeader) ==> r.estimateScaled == 0)
            && (r.allowed && !r.failOpen ==>
                  now / 60_000 in after.buckets && after.buckets[now / 60_000].expiresAt == now + 120_000)
  {}

  /**
    A counter store that throws lets near-live and live calls through without a token and refuses
    background ones, and nothing else fails open: the give-back of a refusal is the third place it may throw.
  */
  lemma WhoFailsOpen(st: LimiterState, caps: Caps, reserve: int, p: Priority, now: int, clock: int, fault: StoreFault)
    requires Tidy(st.buckets, clock) && clock <= now
    requires Acquire(st, caps, reserve, p, now, fault).1.reason != Some(ProviderMinuteHeader)
    ensures var (after, r) := Acquire(st, caps, reserve, p, now, fault);
            && (r.failOpen <==> fault == ReadFails || fault == IncrementFails
                                || (fault == RefundFails && caps.Of(p) * MINUTE_MS < Estimate(st.buckets, now) + MINUTE_MS))
            && (r.failOpen ==> r.estimateScaled == 0 && match p
                  case Live => r.allowed && r.reason == None
                  case NearLive => r.allowed && r.reason == None
                  case Background => !r.allowed && r.reason == Some(StoreUnavailable))
            && (fault == ReadFails || fault == IncrementFails ==> after == st)
  {
    IncrementTidy(st.buckets, Minute(now), 1, now, clock);
    ReadIncremented(st.buckets, Minute(now), 1, now, Minute(now), now);
  }
}
