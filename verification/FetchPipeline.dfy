/**
  `fetchWorkload` (src/worker/ingestion.ts) as a protocol. Any number of callers run at
  once; every `await` is a step boundary, so between two steps of one caller any other may
  move. A caller reads the cache, joins or starts the merged call for its key and class,
  and the one that started it re-checks the cache, takes a minute token (waiting once if
  its class waits), reserves daily quota, asks the provider, writes the cache and settles.

  Each operation on a counter store is a step of its own, and may throw, before or after it
  has reached the store. Its effects and the decisions between them are the specification
  functions of the minute limiter, the daily quota, the cache and the singleflight map.
*/
module FetchPipeline {
  import opened Common
  import opened MinuteLimiter
  import opened Slips
  import Quota
  import Cache = ProviderCache
  import Flight = SingleflightMap

  /** The payload of a workload and resource, or the longer-lived copy of a live one. */
  datatype CacheKey = Payload(resource: string) | LastGood(resource: string)

  datatype Request = Request(resource: string, priority: Priority, useCache: bool)

  datatype MergeKey = MergeKey(priority: Priority, resource: string)

  function MergeKeyFor(r: Request): MergeKey { MergeKey(r.priority, r.resource) }

  const LAST_GOOD_TTL_SECONDS := 15 * 60

  /** `inTime`: the increment landed before the minute after the token's own had ended, while its bucket was readable. */
  datatype Token = NoToken | Held(minute: int, slip: Slip, inTime: bool) | FailOpen

  datatype Outcome = Cached | StaleServed | Throttled | Denied | Skipped | Failed | RateLimited | Fetched | Rejected

  /** Outcomes of calls that reached the provider. */
  predicate Attempted(o: Outcome) { o == Failed || o == RateLimited || o == Fetched }

  datatype Work =
    | Recheck
    | Acquiring(retry: bool)
    | Reading(retry: bool, at: int)
    | Counting(retry: bool, at: int, previous: int)
    | GivingBack(retry: bool, at: int, previous: int, total: int)   // over its ceiling
    | Sleeping(until: int)
    | Reserving
    | Judging(window: int)
    | Refusing(window: int)                                         // over a daily cap
    | Requesting
    | Releasing(outcome: Outcome)
    | Refunding
    | Writing(value: int, ttlSeconds: int)
    | WritingLastGood(value: int)
    | Settling(outcome: Outcome)

  datatype Phase =
    | Arrived
    | Missed
    | Following(leader: nat)
    | Leading(work: Work)
    | Done(outcome: Outcome)
    | Shared(leader: nat)

  /** What a caller has counted: a minute token, and a daily slip. `sent`: its request reached the provider. */
  datatype Caller = Caller(request: Request, phase: Phase, token: Token, reserved: Option<Slip>, sent: bool)

  datatype Write = Write(key: CacheKey, at: int, ttlSeconds: int)

  datatype Config = Config(caps: Caps, headerReserve: int, quota: Quota.Config)

  /**
    `orders` numbers the increments. `strandedMinutes` and `strandedDays` are the increments that
    store operations or calls that threw have left in the counters for nobody.
  */
  datatype State = State(
    now: int,
    callers: seq<Caller>,
    cache: Cache.Entries<CacheKey, int>,
    inflight: Flight.InFlight<MergeKey>,
    limiter: LimiterState,
    counts: Quota.Counts,
    remote: Option<Quota.Remote>,
    writes: seq<Write>,
    orders: nat,
    strandedMinutes: seq<int>,
    strandedDays: nat)

  /** What the provider call came back with; a payload may be missing, and its TTL may be zero. */
  datatype Reply = ReplySkipped | ReplyFailed | ReplyRateLimited | ReplyFetched(json: Option<int>, ttlSeconds: int)

  /** A store operation works, or throws without or after its effect (an increment lands and its EXPIRE, or the reply, is lost). */
  datatype Fault = Works | Throws(landed: bool)

  datatype Step =
    | Tick(ms: nat)
    | Arrive(request: Request)
    | ReadCache(caller: nat)
    | Enter(caller: nat)
    | ReadAgain(caller: nat)
    | BeginAcquire(caller: nat)
    | ReadMinute(caller: nat, throws: bool)
    | CountMinute(caller: nat, fault: Fault)
    | GiveBackMinute(caller: nat, fault: Fault)
    | Wake(caller: nat)
    | CountDay(caller: nat, fault: Fault)
    | JudgeDay(caller: nat)
    | GiveBackDay(caller: nat, fault: Fault)
    | Respond(caller: nat, reply: Reply)
    | ObserveHeaders(dailyLimit: Option<int>, dailyRemaining: Option<int>, minuteRemaining: Option<int>)
    | ReleaseToken(caller: nat, fault: Fault)
    | RefundQuota(caller: nat, fault: Fault)
    | WriteCache(caller: nat, sweep: bool)
    | WriteLastGood(caller: nat, sweep: bool)
    | Reject(caller: nat)
    | Settle(caller: nat)
    | Resolve(caller: nat)

  // --------------------------------------------------------------- helpers

  predicate At(s: State, i: nat, phase: Phase) {
    i < |s.callers| && s.callers[i].phase == phase
  }

  predicate Working(s: State, i: nat) {
    i < |s.callers| && s.callers[i].phase.Leading?
  }

  function Put(s: State, i: nat, k: Caller): State
    requires i < |s.callers|
  {
    s.(callers := s.callers[i := k])
  }

  function WithPhase(s: State, i: nat, phase: Phase): State
    requires i < |s.callers|
  {
    Put(s, i, s.callers[i].(phase := phase))
  }

  function WithWork(s: State, i: nat, work: Work): State
    requires i < |s.callers|
  {
    WithPhase(s, i, Leading(work))
  }

  function Hit(s: State, r: Request): bool {
    r.useCache && Cache.Lookup(s.cache, Payload(r.resource), s.now).Some?
  }

  /** A waiting class sleeps until the limiter expects room, at most a minute. */
  function WaitMs(r: AcquireResult): int {
    Max0(Min(MINUTE_MS, if r.retryAfterMs.Some? then r.retryAfterMs.value else r.msUntilNextMinute))
  }

  /** The bucket of minute `m` after an operation of `delta` that may throw. */
  function BucketAfter(s: State, m: int, delta: int, fault: Fault): State {
    if fault == Throws(false) then s
    else s.(limiter := s.limiter.(buckets := Incremented(s.limiter.buckets, m, delta, s.now, BUCKET_TTL_SECONDS)))
  }

  function DayAfter(s: State, window: int, delta: int, fault: Fault): State {
    if fault == Throws(false) then s else s.(counts := Quota.Added(s.counts, window, delta))
  }

  function StrandMinute(s: State, m: int): State { s.(strandedMinutes := s.strandedMinutes + [m]) }

  // ------------------------------------------------------------------ steps

  predicate Enabled(s: State, step: Step) {
    match step
    case Tick(_) => true
    case Arrive(_) => true
    case ReadCache(i) => At(s, i, Arrived)
    case Enter(i) => At(s, i, Missed)
    case ReadAgain(i) => At(s, i, Leading(Recheck))
    case BeginAcquire(i) => Working(s, i) && s.callers[i].phase.work.Acquiring?
    case ReadMinute(i, _) => Working(s, i) && s.callers[i].phase.work.Reading?
    case CountMinute(i, _) => Working(s, i) && s.callers[i].phase.work.Counting?
    case GiveBackMinute(i, _) => Working(s, i) && s.callers[i].phase.work.GivingBack?
    case Wake(i) => Working(s, i) && s.callers[i].phase.work.Sleeping? && s.callers[i].phase.work.until <= s.now
    case CountDay(i, _) => At(s, i, Leading(Reserving))
    case JudgeDay(i) => Working(s, i) && s.callers[i].phase.work.Judging? && s.callers[i].reserved.Some?
    case GiveBackDay(i, _) => Working(s, i) && s.callers[i].phase.work.Refusing?
    case Respond(i, _) => At(s, i, Leading(Requesting))
    case ObserveHeaders(_, _, _) => true
    case ReleaseToken(i, _) => Working(s, i) && s.callers[i].phase.work.Releasing?
    case RefundQuota(i, _) => At(s, i, Leading(Refunding))
    case WriteCache(i, _) => Working(s, i) && s.callers[i].phase.work.Writing?
    case WriteLastGood(i, _) => Working(s, i) && s.callers[i].phase.work.WritingLastGood?
    case Reject(i) => Working(s, i)
    case Settle(i) => Working(s, i) && s.callers[i].phase.work.Settling?
    case Resolve(i) => i < |s.callers| && s.callers[i].phase.Following?
                       && s.callers[i].phase.leader < |s.callers| && s.callers[s.callers[i].phase.leader].phase.Done?
  }

  function Next(s: State, c: Config, step: Step): State
    requires Enabled(s, step)
  {
    match step
    case Tick(ms) => s.(now := s.now + ms)
    case Arrive(r) => s.(callers := s.callers + [Newcomer(r)])
    case ReadCache(i) =>
      WithPhase(s, i, if Hit(s, s.callers[i].request) then Done(Cached) else Missed)
    case Enter(i) =>
      var key := MergeKeyFor(s.callers[i].request);
      var pending := Flight.Joined(s.inflight, key, i);
      WithPhase(s.(inflight := Flight.Started(s.inflight, key, i)), i,
                if key in s.inflight then Following(pending) else Leading(Recheck))
    case ReadAgain(i) =>
      WithWork(s, i, if Hit(s, s.callers[i].request) then Settling(Cached) else Acquiring(false))
    case BeginAcquire(i) => AcquireBegun(s, c, i)
    case ReadMinute(i, throws) => MinuteRead(s, c, i, throws)
    case CountMinute(i, fault) => MinuteCounted(s, c, i, fault)
    case GiveBackMinute(i, fault) => MinuteGivenBack(s, c, i, fault)
    case Wake(i) => WithWork(s, i, Acquiring(true))
    case CountDay(i, fault) => DayCounted(s, i, fault)
    case JudgeDay(i) =>
      var k, window := s.callers[i], s.callers[i].phase.work.window;
      var calls := Quota.EffectiveCalls(c.quota, s.remote, window, k.reserved.value.total);
      WithWork(s, i, if Quota.CapPassed(c.quota, Some(k.request.priority), calls).Some? then Refusing(window) else Requesting)
    case GiveBackDay(i, fault) =>
      DayGivenBack(DayAfter(s, s.callers[i].phase.work.window, -1, fault), i, fault, Releasing(Denied))
    case Respond(i, reply) =>
      Put(s, i, s.callers[i].(sent := reply != ReplySkipped, phase := Leading(AfterReply(s.callers[i].request, reply))))
    case ObserveHeaders(dl, dr, mr) =>
      s.(remote := Quota.ObservedDaily(s.remote, dl, dr, s.now), limiter := Observed(s.limiter, mr, s.now))
    case ReleaseToken(i, fault) => TokenReleased(s, i, fault)
    case RefundQuota(i, fault) =>
      DayGivenBack(DayAfter(s, Quota.WindowFor(s.now), -1, fault), i, fault, Settling(Skipped))
    case WriteCache(i, sweep) =>
      var r, w := s.callers[i].request, s.callers[i].phase.work;
      WithWork(s.(cache := Cache.Stored(s.cache, sweep, Payload(r.resource), w.value, w.ttlSeconds, s.now),
                  writes := s.writes + [Write(Payload(r.resource), s.now, w.ttlSeconds)]),
               i, if r.priority == Live then WritingLastGood(w.value) else Settling(Fetched))
    case WriteLastGood(i, sweep) =>
      var r, w := s.callers[i].request, s.callers[i].phase.work;
      WithWork(s.(cache := Cache.Stored(s.cache, sweep, LastGood(r.resource), w.value, LAST_GOOD_TTL_SECONDS, s.now)),
               i, Settling(Fetched))
    case Reject(i) => Thrown(s, i)
    case Settle(i) => Cleared(s, i, s.callers[i].phase.work.outcome)
    case Resolve(i) => WithPhase(s, i, Shared(s.callers[i].phase.leader))
  }

  function Newcomer(r: Request): Caller { Caller(r, Arrived, NoToken, None, false) }

  /** What the limiter's answer makes of the caller: on to the quota, to sleep, or throttled. */
  function WithAnswer(s: State, i: nat, retry: bool, r: AcquireResult, token: Token): State
    requires i < |s.callers|
  {
    var k := s.callers[i];
    if r.allowed then Put(s, i, k.(token := token, phase := Leading(Reserving)))
    else if k.request.priority == Live || retry then
      Put(s, i, k.(token := NoToken, phase := Leading(Settling(
        if k.request.priority == Live && Cache.Lookup(s.cache, LastGood(k.request.resource), s.now).Some? then StaleServed else Throttled))))
    else Put(s, i, k.(token := NoToken, phase := Leading(Sleeping(s.now + WaitMs(r)))))
  }

  /** A limiter store that throws is answered for by the class policy, as of when the acquire began. */
  function AnsweredByPolicy(s: State, c: Config, i: nat, retry: bool, at: int): State
    requires i < |s.callers|
  {
    var p := s.callers[i].request.priority;
    WithAnswer(s, i, retry, FailPolicy(p, at, c.caps.Of(p)), FailOpen)
  }

  /** `tryAcquire` reads the clock, and for background the header. */
  function AcquireBegun(s: State, c: Config, i: nat): State
    requires Working(s, i) && s.callers[i].phase.work.Acquiring?
  {
    var p, retry := s.callers[i].request.priority, s.callers[i].phase.work.retry;
    if p == Background && HeaderExhausted(s.limiter, c.headerReserve, Minute(s.now)) then
      WithAnswer(s, i, retry, HeaderDenied(p, s.now, c.caps.Of(p)), NoToken)
    else WithWork(s, i, Reading(retry, s.now))
  }

  function MinuteRead(s: State, c: Config, i: nat, throws: bool): State
    requires Working(s, i) && s.callers[i].phase.work.Reading?
  {
    var w := s.callers[i].phase.work;
    if throws then AnsweredByPolicy(s, c, i, w.retry, w.at)
    else WithWork(s, i, Counting(w.retry, w.at, ReadBucket(s.limiter.buckets, Minute(w.at) - 1, s.now)))
  }

  function MinuteCounted(s: State, c: Config, i: nat, fault: Fault): State
    requires Working(s, i) && s.callers[i].phase.work.Counting?
  {
    var k, w := s.callers[i], s.callers[i].phase.work;
    var m, after := Minute(w.at), BucketAfter(s, Minute(w.at), 1, fault);
    match fault
    case Throws(landed) => AnsweredByPolicy(if landed then StrandMinute(after, m) else after, c, i, w.retry, w.at)
    case Works =>
      var total := ReadBucket(after.limiter.buckets, m, s.now);
      MinuteJudged(after.(orders := s.orders + 1), c, i, w, total, Held(m, Slip(s.orders, total), s.now < (m + 2) * MINUTE_MS))
  }

  /** The incremented total passes the test, or has to be given back. */
  function MinuteJudged(s: State, c: Config, i: nat, w: Work, total: int, token: Token): State
    requires i < |s.callers| && w.Counting?
  {
    var k := s.callers[i];
    var p, ceiling := k.request.priority, c.caps.Of(k.request.priority);
    if OverCeiling(w.previous, total, w.at, ceiling) then
      Put(s, i, k.(token := token, phase := Leading(GivingBack(w.retry, w.at, w.previous, total))))
    else WithAnswer(s, i, w.retry, Admitted(p, w.at, ceiling, w.previous, total), token)
  }

  function MinuteGivenBack(s: State, c: Config, i: nat, fault: Fault): State
    requires Working(s, i) && s.callers[i].phase.work.GivingBack?
  {
    var p, w := s.callers[i].request.priority, s.callers[i].phase.work;
    var m, after := Minute(w.at), BucketAfter(s, Minute(w.at), -1, fault);
    match fault
    case Throws(landed) => AnsweredByPolicy(if landed then after else StrandMinute(after, m), c, i, w.retry, w.at)
    case Works => WithAnswer(after, i, w.retry, CapDenied(p, w.at, c.caps.Of(p), w.previous, w.total), NoToken)
  }

  function DayCounted(s: State, i: nat, fault: Fault): State
    requires At(s, i, Leading(Reserving))
  {
    var k, window := s.callers[i], Quota.WindowFor(s.now);
    var after := DayAfter(s, window, 1, fault);
    match fault
    case Throws(landed) => Thrown(if landed then after.(strandedDays := s.strandedDays + 1) else after, i)
    case Works =>
      Put(after.(orders := s.orders + 1), i,
          k.(reserved := Some(Slip(s.orders, Quota.Count(after.counts, window))), phase := Leading(Judging(window))))
  }

  /** A daily count was taken back, or should have been: on to `next`, or out with the exception. */
  function DayGivenBack(after: State, i: nat, fault: Fault, next: Work): State
    requires i < |after.callers|
  {
    var k := after.callers[i];
    match fault
    case Works => Put(after, i, k.(reserved := None, phase := Leading(next)))
    case Throws(landed) => Thrown(if landed then Put(after, i, k.(reserved := None)) else after, i)
  }

  /** `release` swallows what its store throws. */
  function TokenReleased(s: State, i: nat, fault: Fault): State
    requires Working(s, i) && s.callers[i].phase.work.Releasing?
  {
    var k, outcome := s.callers[i], s.callers[i].phase.work.outcome;
    var after :=
      if !k.token.Held? then s
      else if fault == Throws(false) then StrandMinute(s, k.token.minute)
      else BucketAfter(s, k.token.minute, -1, fault);
    Put(after, i, k.(token := NoToken, phase := Leading(if outcome == Skipped then Refunding else Settling(outcome))))
  }

  function AfterReply(r: Request, reply: Reply): Work {
    match reply
    case ReplySkipped => Releasing(Skipped)
    case ReplyFailed => Settling(Failed)
    case ReplyRateLimited => Settling(RateLimited)
    case ReplyFetched(json, ttl) =>
      if json.Some? && r.useCache && 0 < ttl then Writing(json.value, ttl) else Settling(Fetched)
  }

  /**
    An exception leaves the merged call. If the request had not reached the provider, what the call
    had counted stays in the counters for nobody.
  */
  function Thrown(s: State, i: nat): State
    requires i < |s.callers|
  {
    var k := s.callers[i];
    if k.sent then WithWork(s, i, Settling(Rejected))
    else
      Put(s.(strandedMinutes := s.strandedMinutes + if k.token.Held? then [k.token.minute] else [],
             strandedDays := s.strandedDays + if k.reserved.Some? then 1 else 0),
          i, k.(token := NoToken, reserved := None, phase := Leading(Settling(Rejected))))
  }

  /** The merged call is over: its promise settles and its singleflight claim goes. */
  function Cleared(s: State, i: nat, outcome: Outcome): State
    requires i < |s.callers|
  {
    WithPhase(s.(inflight := Flight.Cleared(s.inflight, MergeKeyFor(s.callers[i].request), i)), i, Done(outcome))
  }

  function Init(now: int): State {
    State(now, [], map[], map[], LimiterState(map[], None), map[], None, [], 0, [], 0)
  }

  predicate RunOk(s: State, c: Config, steps: seq<Step>)
    decreases |steps|
  {
    |steps| == 0 || (Enabled(s, steps[0]) && RunOk(Next(s, c, steps[0]), c, steps[1..]))
  }

  function Run(s: State, c: Config, steps: seq<Step>): State
    requires RunOk(s, c, steps)
    decreases |steps|
  {
    if |steps| == 0 then s else Run(Next(s, c, steps[0]), c, steps[1..])
  }
}
