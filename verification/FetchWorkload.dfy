/**
  `fetchWorkload` (src/worker/ingestion.ts) run by one caller alone, on the objects it composes:
  the cache, the singleflight map, the minute limiter and the daily quota. What it decides among
  many callers at once is FetchPipeline's subject; here is what each path costs and leaves behind.
*/
module FetchWorkload {
  import opened Common
  import opened MinuteLimiter
  import opened FetchPipeline
  import opened ProviderCache
  import opened SingleflightMap
  import Quota
  import Runs = MinuteRuns
  import Guarantees = MinuteGuarantees

  /** What the run meets from outside: limiter store faults on the two attempts, and the provider's reply. */
  datatype World = World(first: StoreFault, second: StoreFault, reply: Reply)

  /** Readers of every bucket, from `at` on, find `delta` more in the current minute's and no other change. */
  ghost predicate BucketsRise(before: Buckets, after: Buckets, at: int, delta: int) {
    forall m, t :: at <= t < (m + 2) * MINUTE_MS ==>
      ReadBucket(after, m, t) == ReadBucket(before, m, t) + if m == Minute(at) then delta else 0
  }

  /** A call's minute token: the limiter after it, the answer, and when it came. */
  datatype MinuteTurn = MinuteTurn(after: LimiterState, token: AcquireResult, at: int)

  /** The limiter as one caller meets it: asked at a time, under a store fault, it answers and changes. */
  type Asking = (LimiterState, int, StoreFault) -> (LimiterState, AcquireResult)

  function Limiter(caps: Caps, headerReserve: int, p: Priority): Asking {
    (st: LimiterState, at: int, fault: StoreFault) => Acquire(st, caps, headerReserve, p, at, fault)
  }

  /**
    Asking once for each of `faults`: a live caller takes the first answer; the other classes wait
    out a refusal, for the limiter's retry time or else the rest of the minute, at most a minute,
    before they ask again.
  */
  function TurnFrom(ask: Asking, live: bool, st: LimiterState, at: int, faults: seq<StoreFault>): MinuteTurn
    requires 0 < |faults|
    decreases |faults|
  {
    var (after, r) := ask(st, at, faults[0]);
    if r.allowed || live || |faults| == 1 then MinuteTurn(after, r, at)
    else
      TurnFrom(ask, live, after, at + WaitMs(r), faults[1..])
  }

  /**
    So a live caller is answered at once, and any other refused one asks a second time after the time
    the refusal names, or else what is left of the minute, but at most 60 seconds, and takes that answer.
  */
  lemma {:induction false} TwoAsks(ask: Asking, live: bool, st: LimiterState, now: int, world: World)
    ensures var (asked, first) := ask(st, now, world.first);
            var turn := TurnFrom(ask, live, st, now, [world.first, world.second]);
            if first.allowed || live then turn == MinuteTurn(asked, first, now)
            else
              && turn.at == now + Max0(Min(60_000, if first.retryAfterMs.Some? then first.retryAfterMs.value else first.msUntilNextMinute))
              && (turn.after, turn.token) == ask(asked, turn.at, world.second)
  {
    var faults := [world.first, world.second];
    assert faults[1..] == [world.second];
  }

  predicate Counted(r: AcquireResult) { r.allowed && !r.failOpen }

  lemma AcquireRises(st: LimiterState, caps: Caps, headerReserve: int, p: Priority, now: int, fault: StoreFault)
    requires Tidy(st.buckets, now) && fault != RefundFails
    ensures var (after, r) := Acquire(st, caps, headerReserve, p, now, fault);
            && Tidy(after.buckets, now) && r.epochMinute == Minute(now)
            && BucketsRise(st.buckets, after.buckets, now, if Counted(r) then 1 else 0)
  {
    if fault == NoFault && !(p == Background && HeaderExhausted(st, headerReserve, Minute(now))) {
      AcquireDecides(st, caps, headerReserve, p, now, now);
    }
  }

  lemma TidyLater(b: Buckets, now: int, at: int)
    requires Tidy(b, now) && now <= at
    ensures Tidy(b, at)
  {}

  lemma RiseAfterNone(before: Buckets, between: Buckets, after: Buckets, now: int, at: int, delta: int)
    requires now <= at && BucketsRise(before, between, now, 0) && BucketsRise(between, after, at, delta)
    ensures BucketsRise(before, after, at, delta)
  {}

  /** What a turn at the minute limiter leaves: in time, and one more in its own minute if it took a counted token. */
  ghost predicate TurnOk(before: Buckets, now: int, t: MinuteTurn, waits: nat) {
    && now <= t.at <= now + waits * MINUTE_MS
    && Tidy(t.after.buckets, t.at) && t.token.epochMinute == Minute(t.at)
    && BucketsRise(before, t.after.buckets, t.at, if Counted(t.token) then 1 else 0)
  }

  lemma LaterOk(before: Buckets, now: int, asked: Buckets, at: int, t: MinuteTurn, waits: nat)
    requires now <= at <= now + MINUTE_MS && BucketsRise(before, asked, now, 0)
    requires TurnOk(asked, at, t, waits)
    ensures TurnOk(before, now, t, waits + 1)
  {
    RiseAfterNone(before, asked, t.after.buckets, now, t.at, if Counted(t.token) then 1 else 0);
  }

  ghost predicate AskOk(ask: Asking, st: LimiterState, at: int, fault: StoreFault) {
    var (after, r) := ask(st, at, fault);
    TurnOk(st.buckets, at, MinuteTurn(after, r, at), 0)
  }

  ghost predicate AsksOk(ask: Asking) {
    forall st: LimiterState, at, fault :: Tidy(st.buckets, at) && fault != RefundFails ==> AskOk(ask, st, at, fault)
  }

  lemma LimiterIsOk(caps: Caps, headerReserve: int, p: Priority)
    ensures AsksOk(Limiter(caps, headerReserve, p))
  {
    forall st: LimiterState, at, fault | Tidy(st.buckets, at) && fault != RefundFails
      ensures AskOk(Limiter(caps, headerReserve, p), st, at, fault)
    {
      AcquireRises(st, caps, headerReserve, p, at, fault);
    }
  }

  lemma {:induction false} TurnIsOk(ask: Asking, live: bool, st: LimiterState, now: int, faults: seq<StoreFault>)
    requires AsksOk(ask) && Tidy(st.buckets, now) && 0 < |faults| && RefundFails !in faults
    ensures TurnOk(st.buckets, now, TurnFrom(ask, live, st, now, faults), |faults| - 1)
    decreases |faults|
  {
    assert AskOk(ask, st, now, faults[0]);
    var (asked, first) := ask(st, now, faults[0]);
    if !first.allowed && !live && 1 < |faults| {
      var at := now + WaitMs(first);
      var rest := faults[1..];
      TidyLater(asked.buckets, now, at);
      TurnIsOk(ask, live, asked, at, rest);
      LaterOk(st.buckets, now, asked.buckets, at, TurnFrom(ask, live, asked, at, rest), |rest| - 1);
    }
  }

  lemma {:induction false} LimiterTurnIsOk(st: LimiterState, caps: Caps, headerReserve: int, p: Priority, now: int, world: World)
    requires Tidy(st.buckets, now) && world.first != RefundFails && world.second != RefundFails
    ensures TurnOk(st.buckets, now, TurnFrom(Limiter(caps, headerReserve, p), p == Live, st, now, [world.first, world.second]), 1)
  {
    LimiterIsOk(caps, headerReserve, p);
    TurnIsOk(Limiter(caps, headerReserve, p), p == Live, st, now, [world.first, world.second]);
  }

  /** What every run leaves the limiter in. */
  ghost predicate Reachable(st: LimiterState, caps: Caps, now: int) {
    caps.Valid() && Tidy(st.buckets, now) && Runs.HeaderInPast(st, now)
  }

  /** With a working store and in a state a run can leave, a near-live or background caller is refused by its ceiling. */
  ghost predicate RefusedByCeiling(st: LimiterState, c: Runs.Config, p: Priority, now: int, world: World) {
    Reachable(st, c.caps, now) && p != Live && world.first == NoFault == world.second && CeilingRefuses(st, c, p, now)
  }

  /** The wait its refusal names. */
  function NamedWait(st: LimiterState, c: Runs.Config, p: Priority, now: int): int {
    var r := Acquire(st, c.caps, c.headerReserve, p, now, NoFault).1;
    if r.retryAfterMs.Some? then r.retryAfterMs.value else r.msUntilNextMinute
  }

  /** The refusal's wait is the first millisecond that fits, so one that is cut to a minute comes too early. */
  lemma CappedWait(asked: LimiterState, c: Runs.Config, p: Priority, now: int, wait: int)
    requires Guarantees.FreeAfter(asked, c, p, now, wait) && 0 < wait
    ensures Acquire(asked, c.caps, c.headerReserve, p, now + Min(60_000, wait), NoFault).1.allowed <==> wait <= 60_000
  {
    assert Guarantees.Allowed(asked, c, p, now + wait);
    if 60_000 < wait {
      assert !Guarantees.Allowed(asked, c, p, now + 60_000);
    }
  }

  /** Asked again `wait` later, the store working and nobody else asking, the limiter lets the caller through. */
  ghost predicate AdmittedAfter(st: LimiterState, c: Runs.Config, p: Priority, now: int, wait: int) {
    Acquire(Acquire(st, c.caps, c.headerReserve, p, now, NoFault).0, c.caps, c.headerReserve, p, now + wait, NoFault).1.allowed
  }

  predicate CeilingRefuses(st: LimiterState, c: Runs.Config, p: Priority, now: int) {
    Acquire(st, c.caps, c.headerReserve, p, now, NoFault).1.reason == Some(MinuteCap)
  }

  lemma SecondAskIff(st: LimiterState, c: Runs.Config, p: Priority, now: int)
    requires Reachable(st, c.caps, now) && CeilingRefuses(st, c, p, now)
    ensures 0 < NamedWait(st, c, p, now)
    ensures AdmittedAfter(st, c, p, now, Min(60_000, NamedWait(st, c, p, now))) <==> NamedWait(st, c, p, now) <= 60_000
  {
    Guarantees.RetryAfterDenial(st, c, p, now);
    var (asked, first) := Acquire(st, c.caps, c.headerReserve, p, now, NoFault);
    CappedWait(asked, c, p, now, first.retryAfterMs.value);
  }

  /**
    After any run of the limiter, its store working and nobody else asking, a caller refused by its
    class ceiling who asks again after the named time, or a minute if that is longer, is admitted
    exactly if the named time is at most a minute.
  */
  lemma {:induction false} SecondAskIsAdmittedIff(clock: int, c: Runs.Config, events: seq<Runs.Event>, p: Priority, now: int)
    requires c.caps.Valid() && Runs.RunOk(Runs.Init(clock), c, events) && Runs.Run(Runs.Init(clock), c, events).clock <= now
    requires CeilingRefuses(Runs.Run(Runs.Init(clock), c, events).st, c, p, now)
    ensures var st := Runs.Run(Runs.Init(clock), c, events).st;
            AdmittedAfter(st, c, p, now, Min(60_000, NamedWait(st, c, p, now))) <==> NamedWait(st, c, p, now) <= 60_000
  {
    var st := Guarantees.AfterRun(clock, c, events, now);
    SecondAskIff(st, c, p, now);
  }

  lemma {:induction false} RefusedTurn(st: LimiterState, c: Runs.Config, p: Priority, now: int, world: World)
    requires RefusedByCeiling(st, c, p, now, world)
    ensures TurnFrom(Limiter(c.caps, c.headerReserve, p), p == Live, st, now, [world.first, world.second]).token.allowed <==>
            NamedWait(st, c, p, now) <= 60_000
  {
    TwoAsks(Limiter(c.caps, c.headerReserve, p), p == Live, st, now, world);
    SecondAskIff(st, c, p, now);
  }

  /**
    A caller's turn at the minute limiter. A live one, or one let through, has its answer at once; a
    near-live or background one that was refused takes the second answer, after the time the first
    named, or else the rest of the minute, but at most a minute. With a working store, a refusal by
    the class ceiling is then lifted exactly if it named at most a minute.
  */
  ghost predicate Decided(st: LimiterState, c: Runs.Config, p: Priority, now: int, world: World, turn: MinuteTurn) {
    var (asked, first) := Acquire(st, c.caps, c.headerReserve, p, now, world.first);
    && (if first.allowed || p == Live then turn == MinuteTurn(asked, first, now)
        else
          && turn.at == now + Max0(Min(60_000, if first.retryAfterMs.Some? then first.retryAfterMs.value else (now / 60_000 + 1) * 60_000 - now))
          && (turn.after, turn.token) == Acquire(asked, c.caps, c.headerReserve, p, turn.at, world.second))
    && (RefusedByCeiling(st, c, p, now, world) ==> (turn.token.allowed <==> NamedWait(st, c, p, now) <= 60_000))
  }

  lemma TurnIsDecided(st: LimiterState, c: Runs.Config, p: Priority, now: int, world: World)
    ensures Decided(st, c, p, now, world, TurnFrom(Limiter(c.caps, c.headerReserve, p), p == Live, st, now, [world.first, world.second]))
  {
    TwoAsks(Limiter(c.caps, c.headerReserve, p), p == Live, st, now, world);
    if RefusedByCeiling(st, c, p, now, world) {
      RefusedTurn(st, c, p, now, world);
    }
  }

  /** A released token leaves the buckets as they were before it was taken. */
  lemma ReleaseUndoes(before: Buckets, st: LimiterState, r: AcquireResult, at: int)
    requires Tidy(before, at) && Tidy(st.buckets, at) && r.allowed && r.epochMinute == Minute(at)
    requires BucketsRise(before, st.buckets, at, if r.failOpen then 0 else 1)
    ensures BucketsRise(before, Released(st, r, at).buckets, at, 0)
  {
    if !r.failOpen {
      var after := Released(st, r, at).buckets;
      forall m, t | at <= t < (m + 2) * MINUTE_MS
        ensures ReadBucket(after, m, t) == ReadBucket(before, m, t)
      {
        ReadIncremented(st.buckets, Minute(at), -1, at, m, t);
        if m == Minute(at) {
          ReadStable(before, m, at, t);
          assert ReadBucket(st.buckets, m, at) == ReadBucket(before, m, at) + 1;
        }
      }
    }
  }

  // ------------------------------------------------------------ the daily side

  /** Every day's count, with `delta` more on the day of `at`. */
  ghost predicate CountsRise(before: Quota.Counts, after: Quota.Counts, at: int, delta: int) {
    forall day :: Quota.Count(after, day) == Quota.Count(before, day) + if day == Quota.WindowFor(at) then delta else 0
  }

  lemma ReserveRises(c: Quota.Config, remote: Option<Quota.Remote>, counts: Quota.Counts, p: Priority, at: int)
    requires Quota.NonNegative(counts)
    ensures var (after, r) := Quota.Reserved(c, remote, counts, 1, Some(p), at);
            Quota.NonNegative(after) && CountsRise(counts, after, at, if r.allowed then 1 else 0)
  {
    var (after, r) := Quota.Reserved(c, remote, counts, 1, Some(p), at);
    forall day
      ensures Quota.NonNegative(after)
      ensures Quota.Count(after, day) == Quota.Count(counts, day) + if day == Quota.WindowFor(at) && r.allowed then 1 else 0
    {
      Quota.ReserveDecides(c, remote, counts, 1, Some(p), at, day);
    }
  }

  lemma RefundUndoes(before: Quota.Counts, counts: Quota.Counts, at: int)
    requires Quota.NonNegative(before) && CountsRise(before, counts, at, 1)
    ensures CountsRise(before, Quota.Added(counts, Quota.WindowFor(at), -1), at, 0)
  {
    var w := Quota.WindowFor(at);
    assert Quota.Count(counts, w) == Quota.Count(before, w) + 1;
  }

  // ----------------------------------------------------------------- the cache

  predicate Writes(request: Request, reply: Reply, outcome: Outcome, data: Option<int>) {
    outcome == Fetched && data.Some? && request.useCache && reply.ReplyFetched? && 0 < reply.ttlSeconds
  }

  /** What a reader of `key` at `t` finds after the call. */
  function Expected(before: Entries<CacheKey, int>, request: Request, reply: Reply, outcome: Outcome, data: Option<int>,
                    at: int, key: CacheKey, t: int): Option<int>
  {
    if Writes(request, reply, outcome, data) && key == Payload(request.resource) then
      if t < at + reply.ttlSeconds * 1_000 then data else None
    else if Writes(request, reply, outcome, data) && request.priority == Live && key == LastGood(request.resource) then
      if t < at + 900_000 then data else None
    else Lookup(before, key, t)
  }

  ghost predicate CacheAfter(before: Entries<CacheKey, int>, after: Entries<CacheKey, int>, request: Request, reply: Reply,
                             outcome: Outcome, data: Option<int>, at: int)
  {
    forall key, t :: at <= t ==> Lookup(after, key, t) == Expected(before, request, reply, outcome, data, at, key, t)
  }

  /** How a call the provider was asked ends. */
  function OutcomeOf(reply: Reply): Outcome {
    match reply
    case ReplySkipped => Skipped
    case ReplyFailed => Failed
    case ReplyRateLimited => RateLimited
    case ReplyFetched(_, _) => Fetched
  }

  // ---------------------------------------------------------------- the answer

  datatype Answer = Answer(outcome: Outcome, data: Option<int>, at: int, failOpen: bool)

  /**
    How a call ends past the cache: by the minute's token, for a live call without one by the last
    good payload, by the daily quota, or by the provider.
  */
  function Paid(cache: Entries<CacheKey, int>, request: Request, turn: MinuteTurn, quotaAllows: bool, reply: Reply): Answer {
    var lastGood := Lookup(cache, LastGood(request.resource), turn.at);
    if !turn.token.allowed then
      if request.priority == Live && lastGood.Some? then Answer(StaleServed, lastGood, turn.at, turn.token.failOpen)
      else Answer(Throttled, None, turn.at, turn.token.failOpen)
    else if !quotaAllows then Answer(Denied, None, turn.at, turn.token.failOpen)
    else Answer(OutcomeOf(reply), if reply.ReplyFetched? then reply.json else None, turn.at, turn.token.failOpen)
  }

  /** And from the cache on: what it holds is answered at once. */
  function Answered(cache: Entries<CacheKey, int>, request: Request, now: int, turn: MinuteTurn, quotaAllows: bool, reply: Reply): Answer {
    var hit := if request.useCache then Lookup(cache, Payload(request.resource), now) else None;
    if hit.Some? then Answer(Cached, hit, now, false) else Paid(cache, request, turn, quotaAllows, reply)
  }

  lemma AnsweredIs(cache: Entries<CacheKey, int>, request: Request, now: int, turn: MinuteTurn, quotaAllows: bool, reply: Reply)
    ensures var a := Answered(cache, request, now, turn, quotaAllows, reply);
            && (a.outcome == Cached <==> request.useCache && Lookup(cache, Payload(request.resource), now).Some?)
            && a.at == (if a.outcome == Cached then now else turn.at)
            && (a.outcome != Cached ==> (a.outcome in {StaleServed, Throttled} <==> !turn.token.allowed))
  {}

  /** From `now` on the cache answers every reader as before. */
  ghost predicate SameReads(before: Entries<CacheKey, int>, after: Entries<CacheKey, int>, now: int) {
    forall key, t :: now <= t ==> Lookup(after, key, t) == Lookup(before, key, t)
  }

  lemma AnsweredAfterRead(before: Entries<CacheKey, int>, after: Entries<CacheKey, int>, request: Request, now: int,
                          turn: MinuteTurn, quotaAllows: bool, reply: Reply)
    requires SameReads(before, after, now) && now <= Answered(after, request, now, turn, quotaAllows, reply).at
    ensures Answered(before, request, now, turn, quotaAllows, reply) == Answered(after, request, now, turn, quotaAllows, reply)
  {}

  lemma CacheAfterReads(before: Entries<CacheKey, int>, read: Entries<CacheKey, int>, after: Entries<CacheKey, int>,
                        request: Request, reply: Reply, outcome: Outcome, data: Option<int>, now: int, at: int)
    requires SameReads(before, read, now) && now <= at
    requires CacheAfter(read, after, request, reply, outcome, data, at)
    ensures CacheAfter(before, after, request, reply, outcome, data, at)
  {}

  lemma CachedChangesNothing(before: Entries<CacheKey, int>, after: Entries<CacheKey, int>, request: Request, reply: Reply, data: Option<int>, now: int)
    requires SameReads(before, after, now)
    ensures CacheAfter(before, after, request, reply, Cached, data, now)
  {}

  // ------------------------------------------------------------------ the loop

  class ApiFootballIngestionLoop {
    const cache: InMemoryProviderCache<CacheKey, int>
    const singleflight: Singleflight<MergeKey>
    const minuteLimiter: ProviderMinuteLimiter
    const quota: Quota.ProviderQuotaTracker

    constructor (cache: InMemoryProviderCache<CacheKey, int>, singleflight: Singleflight<MergeKey>,
                 minuteLimiter: ProviderMinuteLimiter, quota: Quota.ProviderQuotaTracker)
      ensures this.cache == cache && this.singleflight == singleflight && this.minuteLimiter == minuteLimiter && this.quota == quota
    {
      this.cache := cache;
      this.singleflight := singleflight;
      this.minuteLimiter := minuteLimiter;
      this.quota := quota;
    }

    /** What the minute limiter would do for a call of this class. */
    ghost function Turn(p: Priority, now: int, world: World): MinuteTurn
      reads minuteLimiter, minuteLimiter.store
    {
      TurnFrom(Limiter(minuteLimiter.caps, minuteLimiter.headerReserve, p), p == Live, minuteLimiter.State(), now, [world.first, world.second])
    }

    ghost function LimiterConfig(): Runs.Config { Runs.Config(minuteLimiter.caps, minuteLimiter.headerReserve) }

    /** What the daily quota would. */
    ghost predicate QuotaAllows(p: Priority, at: int)
      reads quota, quota.store
    {
      Quota.Reserved(quota.config, quota.remote, quota.store.counts, 1, Some(p), at).1.allowed
    }

    /** The answer a call gets alone, as cache, limiter, quota and provider stand. */
    ghost function Due(request: Request, now: int, world: World): Answer
      reads cache, minuteLimiter, minuteLimiter.store, quota, quota.store
    {
      var turn := Turn(request.priority, now, world);
      Answered(cache.entries, request, now, turn, QuotaAllows(request.priority, turn.at), world.reply)
    }

    /**
      Live is answered at once. The other classes ask a second time after the time a refusal names,
      or else the rest of the minute, at most a minute; with a working store, one refused by its
      ceiling is then admitted exactly if it was named no more than a minute.
    */
    method AcquireMinute(p: Priority, now: int, world: World) returns (r: AcquireResult, at: int)
      modifies minuteLimiter.store
      ensures MinuteTurn(minuteLimiter.State(), r, at) == old(Turn(p, now, world))
      ensures Decided(old(minuteLimiter.State()), LimiterConfig(), p, now, world, MinuteTurn(minuteLimiter.State(), r, at))
    {
      ghost var ask, st := Limiter(minuteLimiter.caps, minuteLimiter.headerReserve, p), minuteLimiter.State();
      TwoAsks(ask, p == Live, st, now, world);
      TurnIsDecided(st, LimiterConfig(), p, now, world);
      at := now;
      r := minuteLimiter.TryAcquire(p, now, world.first);
      assert ask(st, now, world.first) == (minuteLimiter.State(), r);
      if !r.allowed && p != Live {
        ghost var asked := minuteLimiter.State();
        at := now + WaitMs(r);
        r := minuteLimiter.TryAcquire(p, at, world.second);
        assert ask(asked, at, world.second) == (minuteLimiter.State(), r);
      }
    }

    /** Past the minute limiter: reserve, ask the provider, and give back what a refusal or a skip did not use. */
    method Attempt(request: Request, token: AcquireResult, at: int, reply: Reply) returns (outcome: Outcome, data: Option<int>)
      requires token.allowed && Quota.NonNegative(quota.store.counts)
      modifies minuteLimiter.store, quota.store
      ensures outcome == if Quota.Reserved(quota.config, quota.remote, old(quota.store.counts), 1, Some(request.priority), at).1.allowed then OutcomeOf(reply) else Denied
      ensures CountsRise(old(quota.store.counts), quota.store.counts, at, if Attempted(outcome) then 1 else 0)
      ensures minuteLimiter.State() == if Attempted(outcome) then old(minuteLimiter.State()) else Released(old(minuteLimiter.State()), token, at)
      ensures data == if outcome == Fetched then reply.json else None
    {
      ReserveRises(quota.config, quota.remote, quota.store.counts, request.priority, at);
      var reservation := quota.Reserve(1, Some(request.priority), at);
      data := None;
      if !reservation.value.allowed {
        minuteLimiter.Release(token, at);
        return Denied, None;
      }
      match reply {
        case ReplyRateLimited => outcome := RateLimited;
        case ReplyFailed => outcome := Failed;
        case ReplySkipped =>
          minuteLimiter.Release(token, at);
          RefundUndoes(old(quota.store.counts), quota.store.counts, at);
          var _ := quota.Refund(1, at);
          outcome := Skipped;
        case ReplyFetched(json, _) =>
          outcome := Fetched;
          data := json;
      }
    }

    /** The cache write of a fetched payload. */
    method WriteBack(request: Request, reply: Reply, outcome: Outcome, data: Option<int>, at: int)
      modifies cache
      ensures CacheAfter(old(cache.entries), cache.entries, request, reply, outcome, data, at)
    {
      if outcome == Fetched && data.Some? && request.useCache && reply.ReplyFetched? && reply.ttlSeconds > 0 {
        cache.Set(Payload(request.resource), data.value, reply.ttlSeconds, at);
        if request.priority == Live {
          cache.Set(LastGood(request.resource), data.value, LAST_GOOD_TTL_SECONDS, at);
        }
      }
    }

    /** A live caller that got no token is answered with the last good payload, if there is one. */
    method Throttle(request: Request, at: int) returns (outcome: Outcome, data: Option<int>)
      modifies cache
      ensures outcome == StaleServed <==> request.priority == Live && Lookup(old(cache.entries), LastGood(request.resource), at).Some?
      ensures outcome == (if outcome == StaleServed then StaleServed else Throttled)
      ensures data == if outcome == StaleServed then Lookup(old(cache.entries), LastGood(request.resource), at) else None
      ensures SameReads(old(cache.entries), cache.entries, at)
    {
      outcome, data := Throttled, None;
      if request.priority == Live {
        data := cache.Get(LastGood(request.resource), at);
        if data.Some? {
          outcome := StaleServed;
        }
      }
    }

    /** A token, then an attempt: the counters rise by what was attempted, and nothing is cached yet. */
    method Spend(request: Request, now: int, world: World)
      returns (outcome: Outcome, data: Option<int>, at: int, failOpen: bool)
      requires Tidy(minuteLimiter.store.entries, now) && Quota.NonNegative(quota.store.counts)
      requires world.first != RefundFails && world.second != RefundFails
      modifies cache, minuteLimiter.store, quota.store
      ensures now <= at <= now + MINUTE_MS
      ensures var turn := old(Turn(request.priority, now, world));
              Answer(outcome, data, at, failOpen) == Paid(old(cache.entries), request, turn, old(QuotaAllows(request.priority, turn.at)), world.reply)
      ensures CountsRise(old(quota.store.counts), quota.store.counts, at, if Attempted(outcome) then 1 else 0)
      ensures BucketsRise(old(minuteLimiter.store.entries), minuteLimiter.store.entries, at, if Attempted(outcome) && !failOpen then 1 else 0)
      ensures SameReads(old(cache.entries), cache.entries, at)
    {
      ghost var before, turn := minuteLimiter.store.entries, Turn(request.priority, now, world);
      LimiterTurnIsOk(minuteLimiter.State(), minuteLimiter.caps, minuteLimiter.headerReserve, request.priority, now, world);
      var token;
      token, at := AcquireMinute(request.priority, now, world);
      failOpen := token.failOpen;
      if !token.allowed {
        outcome, data := Throttle(request, at);
        return;
      }
      TidyLater(before, now, at);
      outcome, data := Attempt(request, token, at, world.reply);
      if !Attempted(outcome) {
        ReleaseUndoes(before, turn.after, token, at);
      }
    }

    /** The merged call, from its re-check of the cache on. */
    method Merged(request: Request, now: int, world: World)
      returns (outcome: Outcome, data: Option<int>, at: int, failOpen: bool)
      requires Tidy(minuteLimiter.store.entries, now) && Quota.NonNegative(quota.store.counts)
      requires world.first != RefundFails && world.second != RefundFails
      modifies cache, minuteLimiter.store, quota.store
      ensures now <= at <= now + MINUTE_MS
      ensures Answer(outcome, data, at, failOpen) == old(Due(request, now, world))
      ensures CountsRise(old(quota.store.counts), quota.store.counts, at, if Attempted(outcome) then 1 else 0)
      ensures BucketsRise(old(minuteLimiter.store.entries), minuteLimiter.store.entries, at, if Attempted(outcome) && !failOpen then 1 else 0)
      ensures CacheAfter(old(cache.entries), cache.entries, request, world.reply, outcome, data, at)
    {
      if request.useCache {
        data := cache.Get(Payload(request.resource), now);
        if data.Some? {
          CachedChangesNothing(old(cache.entries), cache.entries, request, world.reply, data, now);
          return Cached, data, now, false;
        }
      }
      ghost var read, turn := cache.entries, Turn(request.priority, now, world);
      ghost var allows := QuotaAllows(request.priority, turn.at);
      outcome, data, at, failOpen := Spend(request, now, world);
      AnsweredAfterRead(old(cache.entries), read, request, now, turn, allows, world.reply);
      ghost var spent := cache.entries;
      WriteBack(request, world.reply, outcome, data, at);
      CacheAfterReads(read, spent, cache.entries, request, world.reply, outcome, data, at, at);
      CacheAfterReads(old(cache.entries), read, cache.entries, request, world.reply, outcome, data, now, at);
    }

    /** The claim on the merged call, taken when nobody holds it and let go when the call is over. */
    method Shared(request: Request, now: int, world: World)
      returns (outcome: Outcome, data: Option<int>, at: int, failOpen: bool)
      requires Tidy(minuteLimiter.store.entries, now) && Quota.NonNegative(quota.store.counts)
      requires world.first != RefundFails && world.second != RefundFails
      requires MergeKeyFor(request) !in singleflight.inflight
      modifies cache, singleflight, minuteLimiter.store, quota.store
      ensures singleflight.inflight == old(singleflight.inflight)
      ensures now <= at <= now + MINUTE_MS
      ensures Answer(outcome, data, at, failOpen) == old(Due(request, now, world))
      ensures CountsRise(old(quota.store.counts), quota.store.counts, at, if Attempted(outcome) then 1 else 0)
      ensures BucketsRise(old(minuteLimiter.store.entries), minuteLimiter.store.entries, at, if Attempted(outcome) && !failOpen then 1 else 0)
      ensures CacheAfter(old(cache.entries), cache.entries, request, world.reply, outcome, data, at)
    {
      var pending, _ := singleflight.Do(MergeKeyFor(request), 0);
      outcome, data, at, failOpen := Merged(request, now, world);
      singleflight.Settle(MergeKeyFor(request), pending);
    }

    /**
      One call, alone: how it ends, with what and when, and what it costs. Found in the cache,
      throttled, denied and skipped calls leave the day's counter and the minute's bucket as they
      were; a call that reached the provider raises both by one (a fail-open token has no bucket).
      Only a fetched payload changes what the cache answers, for its own key until its TTL, and for
      a live call its last-good key too.
    */
    method FetchWorkload(request: Request, now: int, world: World) returns (outcome: Outcome, data: Option<int>, at: int, failOpen: bool)
      requires Tidy(minuteLimiter.store.entries, now) && Quota.NonNegative(quota.store.counts)
      requires MergeKeyFor(request) !in singleflight.inflight
      requires world.first != RefundFails && world.second != RefundFails
      modifies cache, singleflight, minuteLimiter.store, quota.store
      ensures singleflight.inflight == old(singleflight.inflight)
      ensures now <= at <= now + MINUTE_MS
      ensures Answer(outcome, data, at, failOpen) == old(Due(request, now, world))
      ensures CountsRise(old(quota.store.counts), quota.store.counts, at, if Attempted(outcome) then 1 else 0)
      ensures BucketsRise(old(minuteLimiter.store.entries), minuteLimiter.store.entries, at, if Attempted(outcome) && !failOpen then 1 else 0)
      ensures CacheAfter(old(cache.entries), cache.entries, request, world.reply, outcome, data, at)
      ensures outcome == Cached <==> request.useCache && Lookup(old(cache.entries), Payload(request.resource), now).Some?
      ensures outcome == Cached ==> at == now
      ensures outcome != Cached ==>
                exists turn: MinuteTurn :: Decided(old(minuteLimiter.State()), LimiterConfig(), request.priority, now, world, turn)
                                           && at == turn.at && (outcome in {StaleServed, Throttled} <==> !turn.token.allowed)
    {
      ghost var turn := Turn(request.priority, now, world);
      TurnIsDecided(minuteLimiter.State(), LimiterConfig(), request.priority, now, world);
      AnsweredIs(cache.entries, request, now, turn, QuotaAllows(request.priority, turn.at), world.reply);
      ghost var allows := QuotaAllows(request.priority, turn.at);
      if request.useCache {
        data := cache.Get(Payload(request.resource), now);
        if data.Some? {
          CachedChangesNothing(old(cache.entries), cache.entries, request, world.reply, data, now);
          return Cached, data, now, false;
        }
      }
      ghost var read := cache.entries;
      outcome, data, at, failOpen := Shared(request, now, world);
      AnsweredAfterRead(old(cache.entries), read, request, now, turn, allows, world.reply);
      CacheAfterReads(old(cache.entries), read, cache.entries, request, world.reply, outcome, data, now, at);
    }
  }
}
