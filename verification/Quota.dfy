/**
  The daily provider quota (src/worker/quota.ts): the counter store, and the tracker that
  increments first, tests the new total and gives the cost back when a cap is passed.
*/
module Quota {
  import opened Common
  import opened MinuteLimiter

  const DAY_MS: int := 24 * 60 * 60 * 1_000
  const DEFAULT_HARD_CAP := 140_000
  const DEFAULT_SOFT_CAP := 130_000
  const DEFAULT_BACKGROUND_DAILY_CAP := 110_000

  datatype QuotaSource = Local | ProviderHeader

  datatype Config = Config(hardCap: int, softCap: int, backgroundDailyCap: int, source: QuotaSource)

  /** What every accepted configuration satisfies. The soft cap may lie above the hard cap. */
  predicate ValidConfig(c: Config) {
    0 < c.backgroundDailyCap <= c.hardCap
  }

  function DefaultBackgroundDailyCap(softCap: int, hardCap: int): int {
    Min(DEFAULT_BACKGROUND_DAILY_CAP, Min(softCap, hardCap))
  }

  function OrElse(given: Option<int>, default: int): int {
    if given.Some? then given.value else default
  }

  /** The constructor's checks and defaults. The soft cap is compared only with a hard cap given beside it. */
  function ConfigFrom(hardCap: Option<int>, softCap: Option<int>, backgroundDailyCap: Option<int>, source: QuotaSource): Result<Config> {
    if softCap.Some? && hardCap.Some? && softCap.value > hardCap.value then
      Err("Provider quota soft cap must not exceed hard cap")
    else
      var hard, soft := OrElse(hardCap, DEFAULT_HARD_CAP), OrElse(softCap, DEFAULT_SOFT_CAP);
      var background := OrElse(backgroundDailyCap, DefaultBackgroundDailyCap(soft, hard));
      if background <= 0 then Err("Provider background daily cap must be positive")
      else if background > hard then Err("Provider background daily cap must not exceed hard cap")
      else Ok(Config(hard, soft, background, source))
  }

  /** One of the caps is left to its default, on the wrong side of the other. */
  predicate OneCapMisplaced(hardCap: Option<int>, softCap: Option<int>) {
    || (softCap.None? && hardCap.Some? && hardCap.value < 130_000)
    || (hardCap.None? && softCap.Some? && 140_000 < softCap.value)
  }

  /**
    Every accepted configuration is valid, and every valid one is accepted from some options unless
    its soft cap passes its hard cap and neither is a default. An accepted soft cap passes the hard
    cap exactly when one of them is left to its default, on the wrong side of the other.
  */
  lemma AcceptedConfigs(hardCap: Option<int>, softCap: Option<int>, backgroundDailyCap: Option<int>, source: QuotaSource, c: Config)
    ensures var r := ConfigFrom(hardCap, softCap, backgroundDailyCap, source);
            r.Ok? ==> ValidConfig(r.value) && (r.value.hardCap < r.value.softCap <==> OneCapMisplaced(hardCap, softCap))
    ensures (exists hard, soft, background :: ConfigFrom(hard, soft, background, c.source) == Ok(c)) <==>
            ValidConfig(c) && (c.softCap <= c.hardCap || c.softCap == 130_000 || c.hardCap == 140_000)
    ensures ConfigFrom(None, None, None, source) == Ok(Config(140_000, 130_000, 110_000, source))
  {
    if ValidConfig(c) {
      if c.softCap <= c.hardCap {
        assert ConfigFrom(Some(c.hardCap), Some(c.softCap), Some(c.backgroundDailyCap), c.source) == Ok(c);
      } else if c.softCap == DEFAULT_SOFT_CAP {
        assert ConfigFrom(Some(c.hardCap), None, Some(c.backgroundDailyCap), c.source) == Ok(c);
      } else if c.hardCap == DEFAULT_HARD_CAP {
        assert ConfigFrom(None, Some(c.softCap), Some(c.backgroundDailyCap), c.source) == Ok(c);
      }
    }
  }

  /** The UTC calendar date, as a day number. */
  function WindowFor(nowMs: int): int { nowMs / DAY_MS }

  // ---------------------------------------------------------------- store

  type Counts = map<int, int>

  function Count(counts: Counts, window: int): int {
    if window in counts then counts[window] else 0
  }

  function Added(counts: Counts, window: int, delta: int): Counts {
    counts[window := Max0(Count(counts, window) + delta)]
  }

  class InMemoryQuotaStore {
    var counts: Counts

    constructor ()
      ensures counts == map[]
    {
      counts := map[];
    }

    method Increment(window: int, delta: int) returns (next: int)
      modifies this
      ensures counts == Added(old(counts), window, delta)
      ensures next == Count(counts, window)
    {
      next := Max0((if window in counts then counts[window] else 0) + delta);
      counts := counts[window := next];
    }

    method Read(window: int) returns (calls: int)
      ensures calls == Count(counts, window)
    {
      if window in counts {
        return counts[window];
      }
      return 0;
    }
  }

  // -------------------------------------------------------------- tracker

  datatype Remote = Remote(window: int, used: int, limit: int)

  datatype Posture = Normal | SoftCapReached | HardCapReached

  datatype Snapshot = Snapshot(window: int, calls: int, localCalls: int, posture: Posture, backgroundCapReached: bool) {
    predicate CachedOnlyMode() { posture != Normal }
  }

  datatype QuotaReason = SoftCap | HardCap | BackgroundCap

  datatype CheckResult = CheckResult(allowed: bool, reason: Option<QuotaReason>, snapshot: Snapshot)

  function RemoteUsed(remote: Option<Remote>, window: int): int {
    if remote.Some? && remote.value.window == window then remote.value.used else 0
  }

  function EffectiveCalls(c: Config, remote: Option<Remote>, window: int, localCalls: int): int {
    if c.source == ProviderHeader then Max(localCalls, RemoteUsed(remote, window)) else localCalls
  }

  function SnapshotFromCount(c: Config, remote: Option<Remote>, window: int, localCalls: int): Snapshot {
    var calls := EffectiveCalls(c, remote, window, localCalls);
    Snapshot(window, calls, localCalls,
             if calls >= c.hardCap then HardCapReached else if calls >= c.softCap then SoftCapReached else Normal,
             calls >= c.backgroundDailyCap)
  }

  /** The cap, if any, that an incremented total passes. Background meets its own cap first. */
  function CapPassed(c: Config, p: Option<Priority>, total: int): Option<QuotaReason> {
    if p == Some(Background) && total > c.backgroundDailyCap then Some(BackgroundCap)
    else if total > c.hardCap then Some(HardCap)
    else None
  }

  function Reserved(c: Config, remote: Option<Remote>, counts: Counts, cost: int, p: Option<Priority>, now: int)
    : (Counts, CheckResult)
  {
    var window := WindowFor(now);
    var taken := Added(counts, window, cost);
    var total := Count(taken, window);
    var passed := CapPassed(c, p, EffectiveCalls(c, remote, window, total));
    if passed.Some? then
      (Added(taken, window, -cost), CheckResult(false, passed, SnapshotFromCount(c, remote, window, Max0(total - cost))))
    else
      var snapshot := SnapshotFromCount(c, remote, window, total);
      (taken, CheckResult(true, if snapshot.posture == SoftCapReached then Some(SoftCap) else None, snapshot))
  }

  /** Within a window the highest reading wins, unless it falls by more than half. */
  function ObservedDaily(remote: Option<Remote>, limit: Option<int>, remaining: Option<int>, now: int): Option<Remote> {
    if limit.None? || remaining.None? || limit.value <= 0 || remaining.value < 0 then remote
    else
      var window := WindowFor(now);
      var used := Max0(limit.value - remaining.value);
      if remote.Some? && remote.value.window == window && used < remote.value.used && !(2 * used < remote.value.used) then remote
      else Some(Remote(window, used, limit.value))
  }

  /** Both headers are there, the limit positive and the rest not negative. */
  predicate Usable(limit: Option<int>, remaining: Option<int>) {
    limit.Some? && remaining.Some? && 0 < limit.value && 0 <= remaining.value
  }

  /** The day's usage after a reading of `used`: never lowered, unless to less than half. */
  function UsedAfter(before: int, used: int): int {
    if before <= used || 2 * used < before then used else before
  }

  /** One reading moves the usage of its own day as that says, forgets another day's, and an unusable one changes nothing. */
  lemma ReadingDecides(remote: Option<Remote>, limit: Option<int>, remaining: Option<int>, now: int, day: int)
    ensures var after := ObservedDaily(remote, limit, remaining, now);
            if !Usable(limit, remaining) then after == remote
            else
              && after.Some? && after.value.window == now / 86_400_000
              && RemoteUsed(after, now / 86_400_000) == UsedAfter(RemoteUsed(remote, now / 86_400_000), Max0(limit.value - remaining.value))
              && (day != now / 86_400_000 ==> RemoteUsed(after, day) == 0)
  {}

  class ProviderQuotaTracker {
    const store: InMemoryQuotaStore
    const config: Config
    var remote: Option<Remote>

    constructor (store: InMemoryQuotaStore, config: Config)
      requires ValidConfig(config)
      ensures this.store == store && this.config == config && remote == None
    {
      this.store := store;
      this.config := config;
      this.remote := None;
    }

    method Reserve(cost: int, p: Option<Priority>, now: int) returns (r: Result<CheckResult>)
      modifies store
      ensures cost <= 0 ==> r.Err? && store.counts == old(store.counts)
      ensures cost > 0 ==> r.Ok? && (store.counts, r.value) == Reserved(config, remote, old(store.counts), cost, p, now)
    {
      if cost <= 0 {
        return Err("Provider quota cost must be positive");
      }
      var window := WindowFor(now);
      var localTotal := store.Increment(window, cost);
      var total := EffectiveCalls(config, remote, window, localTotal);
      if p == Some(Background) && total > config.backgroundDailyCap {
        var _ := store.Increment(window, -cost);
        return Ok(CheckResult(false, Some(BackgroundCap), SnapshotFromCount(config, remote, window, Max0(localTotal - cost))));
      }
      if total > config.hardCap {
        var _ := store.Increment(window, -cost);
        return Ok(CheckResult(false, Some(HardCap), SnapshotFromCount(config, remote, window, Max0(localTotal - cost))));
      }
      var snapshot := SnapshotFromCount(config, remote, window, localTotal);
      if snapshot.posture == SoftCapReached {
        return Ok(CheckResult(true, Some(SoftCap), snapshot));
      }
      return Ok(CheckResult(true, None, snapshot));
    }

    method Refund(cost: int, now: int) returns (r: Result<Snapshot>)
      modifies store
      ensures cost <= 0 ==> r.Err? && store.counts == old(store.counts)
      ensures cost > 0 ==> store.counts == Added(old(store.counts), WindowFor(now), -cost)
      ensures cost > 0 ==> r == Ok(SnapshotFromCount(config, remote, WindowFor(now), Count(store.counts, WindowFor(now))))
    {
      if cost <= 0 {
        return Err("Provider quota refund cost must be positive");
      }
      var total := store.Increment(WindowFor(now), -cost);
      return Ok(SnapshotFromCount(config, remote, WindowFor(now), total));
    }

    method ObserveProviderDaily(limit: Option<int>, remaining: Option<int>, now: int)
      modifies this
      ensures remote == ObservedDaily(old(remote), limit, remaining, now)
      ensures !Usable(limit, remaining) ==> remote == old(remote)
      ensures Usable(limit, remaining) ==>
                remote.Some? && remote.value.window == now / 86_400_000
                && remote.value.used == UsedAfter(RemoteUsed(old(remote), now / 86_400_000), Max0(limit.value - remaining.value))
    {
      ReadingDecides(remote, limit, remaining, now, now / 86_400_000);
      if limit.None? || remaining.None? || limit.value <= 0 || remaining.value < 0 {
        return;
      }
      var window := WindowFor(now);
      var used := Max0(limit.value - remaining.value);
      if remote.Some? && remote.value.window == window && used < remote.value.used {
        if 2 * used < remote.value.used {
          remote := Some(Remote(window, used, limit.value));
        }
        return;
      }
      remote := Some(Remote(window, used, limit.value));
    }
  }

  /** Every count a store can hold. */
  predicate NonNegative(counts: Counts) {
    forall window :: window in counts ==> 0 <= counts[window]
  }

  /**
    One uninterrupted reservation: granted exactly when the new total stays within the caps
    of its class; a grant adds the cost to its own window only; a denial adds nothing.
  */
  lemma ReserveDecides(c: Config, remote: Option<Remote>, counts: Counts, cost: int, p: Option<Priority>, now: int, window: int)
    requires NonNegative(counts) && 0 < cost
    ensures var (after, r) := Reserved(c, remote, counts, cost, p, now);
            var w := WindowFor(now);
            var calls := EffectiveCalls(c, remote, w, Count(counts, w) + cost);
            && NonNegative(after)
            && (r.allowed <==> calls <= c.hardCap && (p == Some(Background) ==> calls <= c.backgroundDailyCap))
            && (!r.allowed ==> r.reason == Some(if p == Some(Background) && c.backgroundDailyCap < calls then BackgroundCap else HardCap))
            && Count(after, window) == Count(counts, window) + (if r.allowed && window == w then cost else 0)
            && r.snapshot.localCalls == Count(after, w)
  {}

  /**
    Cached-only mode is what a run reads back after a reservation: on exactly from the smaller of
    the soft and the hard cap. A grant warns of the soft cap exactly between the two, so never if
    the soft cap is not below the hard cap.
  */
  lemma CachedOnlyFromTheSmallerCap(c: Config, remote: Option<Remote>, counts: Counts, cost: int, p: Option<Priority>, now: int)
    requires NonNegative(counts) && 0 < cost
    ensures var (after, r) := Reserved(c, remote, counts, cost, p, now);
            var calls := EffectiveCalls(c, remote, WindowFor(now), Count(after, WindowFor(now)));
            && r.snapshot.calls == calls
            && (r.snapshot.CachedOnlyMode() <==> Min(c.softCap, c.hardCap) <= calls)
            && (r.snapshot.backgroundCapReached <==> c.backgroundDailyCap <= calls)
            && (r.allowed ==> (r.reason == Some(SoftCap) <==> c.softCap <= calls < c.hardCap))
            && (r.reason == Some(SoftCap) ==> c.softCap < c.hardCap)
  {
    ReserveDecides(c, remote, counts, cost, p, now, WindowFor(now));
  }

  /**
    A refund lands in the day of the refund, not of the reservation: a call reserved just
    before UTC midnight and given back just after leaves the old day one too high, and takes
    one from the new day exactly when that day has already counted something.
  */
  lemma RefundAfterMidnight(c: Config, remote: Option<Remote>, counts: Counts, p: Option<Priority>, reservedAt: int, refundedAt: int)
    requires NonNegative(counts) && Reserved(c, remote, counts, 1, p, reservedAt).1.allowed
    ensures var w, w' := WindowFor(reservedAt), WindowFor(refundedAt);
            var after := Added(Reserved(c, remote, counts, 1, p, reservedAt).0, w', -1);
            && ((forall window :: Count(after, window) == Count(counts, window)) <==> w == w')
            && (w != w' ==> Count(after, w) == Count(counts, w) + 1
                            && Count(after, w') == Max0(Count(counts, w') - 1))
  {
    var w, w' := WindowFor(reservedAt), WindowFor(refundedAt);
    var after := Added(Reserved(c, remote, counts, 1, p, reservedAt).0, w', -1);
    ReserveDecides(c, remote, counts, 1, p, reservedAt, w);
    if w != w' {
      assert Count(after, w) == Count(counts, w) + 1;
    } else {
      forall window
        ensures Count(after, window) == Count(counts, window)
      {
        ReserveDecides(c, remote, counts, 1, p, reservedAt, window);
      }
    }
  }

  // ------------------------------------------------- readings over a day

  datatype Reading = Reading(limit: Option<int>, remaining: Option<int>, at: int)

  function AfterReadings(remote: Option<Remote>, readings: seq<Reading>): Option<Remote> {
    if |readings| == 0 then remote
    else
      var last := readings[|readings| - 1];
      ObservedDaily(AfterReadings(remote, readings[..|readings| - 1]), last.limit, last.remaining, last.at)
  }

  function UsedOf(r: Reading): int
    requires Usable(r.limit, r.remaining)
  {
    Max0(r.limit.value - r.remaining.value)
  }

  /** Usable readings of one day, none less than half of any before it. */
  ghost predicate OneDay(readings: seq<Reading>, day: int) {
    && (forall i :: 0 <= i < |readings| ==> Usable(readings[i].limit, readings[i].remaining) && readings[i].at / 86_400_000 == day)
    && (forall i, j :: 0 <= i < j < |readings| ==> UsedOf(readings[i]) <= 2 * UsedOf(readings[j]))
  }

  ghost predicate IsHighest(readings: seq<Reading>, used: int)
    requires forall i :: 0 <= i < |readings| ==> Usable(readings[i].limit, readings[i].remaining)
  {
    && (exists i :: 0 <= i < |readings| && UsedOf(readings[i]) == used)
    && (forall i :: 0 <= i < |readings| ==> UsedOf(readings[i]) <= used)
  }

  lemma HighestGrows(front: seq<Reading>, last: Reading, used: int)
    requires Usable(last.limit, last.remaining) && forall i :: 0 <= i < |front| ==> Usable(front[i].limit, front[i].remaining)
    requires if |front| == 0 then used == 0 else IsHighest(front, used) && used <= 2 * UsedOf(last)
    ensures IsHighest(front + [last], UsedAfter(used, UsedOf(last)))
  {
    var all := front + [last];
    assert all[|front|] == last;
    if |front| > 0 {
      var i :| 0 <= i < |front| && UsedOf(front[i]) == used;
      assert all[i] == front[i];
    }
  }

  /**
    Over the readings of a day, whatever was read the days before, the day's usage is the highest of
    them, in whatever order they came, while none falls below half of one before it.
  */
  lemma {:induction false} HighestReadingWins(remote: Option<Remote>, readings: seq<Reading>, day: int)
    requires 0 < |readings| && OneDay(readings, day) && RemoteUsed(remote, day) == 0
    ensures IsHighest(readings, RemoteUsed(AfterReadings(remote, readings), day))
    decreases |readings|
  {
    var n := |readings| - 1;
    var front, last := readings[..n], readings[n];
    var used := RemoteUsed(AfterReadings(remote, front), day);
    assert front + [last] == readings && last == readings[n];
    if n > 0 {
      FrontOneDay(readings, day);
      HighestReadingWins(remote, front, day);
      HighestBelowTwice(readings, day, used);
    }
    HighestGrows(front, last, used);
    NextReading(remote, readings, day);
  }

  lemma FrontOneDay(readings: seq<Reading>, day: int)
    requires 0 < |readings| && OneDay(readings, day)
    ensures OneDay(readings[..|readings| - 1], day)
  {}

  lemma HighestBelowTwice(readings: seq<Reading>, day: int, used: int)
    requires 1 < |readings| && OneDay(readings, day) && OneDay(readings[..|readings| - 1], day) && IsHighest(readings[..|readings| - 1], used)
    ensures used <= 2 * UsedOf(readings[|readings| - 1])
  {
    var n := |readings| - 1;
    var i :| 0 <= i < n && UsedOf(readings[..n][i]) == used;
    assert readings[i] == readings[..n][i];
  }

  lemma {:induction false} NextReading(remote: Option<Remote>, readings: seq<Reading>, day: int)
    requires 0 < |readings| && OneDay(readings, day)
    ensures RemoteUsed(AfterReadings(remote, readings), day) ==
            UsedAfter(RemoteUsed(AfterReadings(remote, readings[..|readings| - 1]), day), UsedOf(readings[|readings| - 1]))
  {
    var last := readings[|readings| - 1];
    ReadingDecides(AfterReadings(remote, readings[..|readings| - 1]), last.limit, last.remaining, last.at, day);
  }

  /** A reading below half of the day's usage is a reset: it is the usage from then on. */
  lemma {:induction false} ResetIsAdopted(remote: Option<Remote>, reading: Reading)
    requires Usable(reading.limit, reading.remaining) && 2 * UsedOf(reading) < RemoteUsed(remote, reading.at / 86_400_000)
    ensures RemoteUsed(AfterReadings(remote, [reading]), reading.at / 86_400_000) == UsedOf(reading)
  {
    assert [reading][..0] == [];
    assert AfterReadings(remote, []) == remote;
    assert AfterReadings(remote, [reading]) == ObservedDaily(remote, reading.limit, reading.remaining, reading.at);
    ReadingDecides(remote, reading.limit, reading.remaining, reading.at, 0);
  }
}
