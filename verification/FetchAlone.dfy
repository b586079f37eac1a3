/**
  The store steps of `fetchWorkload`'s callers, put back together: with nobody else moving in
  between, those of `tryAcquire` are the minute limiter's acquire under any fault of its store,
  and those of `reserve` the quota tracker's reserve.
*/
module FetchAlone {
  import opened Common
  import opened MinuteLimiter
  import opened Slips
  import opened FetchPipeline
  import opened FetchFlight
  import Quota
  import Cache = ProviderCache

  /** Since `s` neither time nor the cache has moved, and caller `i` is still leading its call. */
  predicate Meanwhile(s: State, t: State, i: nat) {
    && i < |s.callers| == |t.callers| && t.now == s.now && t.cache == s.cache
    && t.callers[i].request == s.callers[i].request && t.callers[i].phase.Leading?
  }

  /** What a caller does with the limiter's answer `r`: a waiting class sleeps once, for the time it names or else the rest of the minute, at most a minute. */
  predicate ActsOn(s: State, i: nat, retry: bool, r: AcquireResult, phase: Phase)
    requires i < |s.callers|
  {
    var request := s.callers[i].request;
    var lastGood := Cache.Lookup(s.cache, LastGood(request.resource), s.now);
    if r.allowed then phase == Leading(Reserving)
    else if request.priority == Live then phase == Leading(Settling(if lastGood.Some? then StaleServed else Throttled))
    else if retry then phase == Leading(Settling(Throttled))
    else phase == Leading(Sleeping(s.now + Max0(Min(60_000, if r.retryAfterMs.Some? then r.retryAfterMs.value else r.msUntilNextMinute))))
  }

  /** In `t` caller `i` of `s` has the limiter's answer `r`, and a counted token exactly if `r` grants one. */
  predicate Told(s: State, t: State, i: nat, retry: bool, limiter: LimiterState, r: AcquireResult) {
    && Meanwhile(s, t, i) && t.limiter == limiter
    && ActsOn(s, i, retry, r, t.callers[i].phase)
    && t.callers[i].token.Held? == (r.allowed && !r.failOpen)
    && (t.callers[i].token == FailOpen) == (r.allowed && r.failOpen)
    && (t.callers[i].token.Held? ==> t.callers[i].token.minute == r.epochMinute)
  }

  lemma AnswerTells(s: State, base: State, i: nat, retry: bool, r: AcquireResult, token: Token)
    requires Meanwhile(s, base, i)
    requires r.allowed ==> if r.failOpen then token == FailOpen else token.Held? && token.minute == r.epochMinute
    ensures Told(s, WithAnswer(base, i, retry, r, token), i, retry, base.limiter, r)
  {}

  lemma PolicyTells(s: State, base: State, c: Config, i: nat, retry: bool, at: int)
    requires Meanwhile(s, base, i)
    ensures var p := s.callers[i].request.priority;
            Told(s, AnsweredByPolicy(base, c, i, retry, at), i, retry, base.limiter, FailPolicy(p, at, c.caps.Of(p)))
  {
    var p := s.callers[i].request.priority;
    AnswerTells(s, base, i, retry, FailPolicy(p, at, c.caps.Of(p)), FailOpen);
  }

  /** The give-back, its store working or throwing without effect. */
  lemma GiveBackTells(s: State, g: State, c: Config, i: nat, works: bool)
    requires Meanwhile(s, g, i) && g.callers[i].phase.work.GivingBack?
    ensures var p, w := s.callers[i].request.priority, g.callers[i].phase.work;
            var ceiling := c.caps.Of(p);
            if works then
              Told(s, MinuteGivenBack(g, c, i, Works), i, w.retry,
                   g.limiter.(buckets := Incremented(g.limiter.buckets, Minute(w.at), -1, g.now, BUCKET_TTL_SECONDS)),
                   CapDenied(p, w.at, ceiling, w.previous, w.total))
            else Told(s, MinuteGivenBack(g, c, i, Throws(false)), i, w.retry, g.limiter, FailPolicy(p, w.at, ceiling))
  {
    var p, w := s.callers[i].request.priority, g.callers[i].phase.work;
    if works {
      AnswerTells(s, BucketAfter(g, Minute(w.at), -1, Works), i, w.retry, CapDenied(p, w.at, c.caps.Of(p), w.previous, w.total), NoToken);
    } else {
      PolicyTells(s, StrandMinute(g, Minute(w.at)), c, i, w.retry, w.at);
    }
  }

  /** Limiter and answer once the increment has returned `total`, the give-back working or throwing without effect. */
  function Verdict(st: LimiterState, c: Config, p: Priority, at: int, now: int, previous: int, total: int, works: bool): (LimiterState, AcquireResult) {
    var ceiling := c.caps.Of(p);
    if !OverCeiling(previous, total, at, ceiling) then (st, Admitted(p, at, ceiling, previous, total))
    else if !works then (st, FailPolicy(p, at, ceiling))
    else (st.(buckets := Incremented(st.buckets, Minute(at), -1, now, BUCKET_TTL_SECONDS)), CapDenied(p, at, ceiling, previous, total))
  }

  lemma AcquireIsVerdict(st: LimiterState, c: Config, p: Priority, now: int, fault: StoreFault)
    requires !(p == Background && HeaderExhausted(st, c.headerReserve, Minute(now))) && fault != ReadFails && fault != IncrementFails
    ensures var taken := Incremented(st.buckets, Minute(now), 1, now, BUCKET_TTL_SECONDS);
            Acquire(st, c.caps, c.headerReserve, p, now, fault) ==
            Verdict(st.(buckets := taken), c, p, now, now, ReadBucket(st.buckets, Minute(now) - 1, now), ReadBucket(taken, Minute(now), now), fault != RefundFails)
  {}

  function AloneGivenBack(g: State, c: Config, i: nat, works: bool): State
    requires Working(g, i)
  {
    if g.callers[i].phase.work.GivingBack? then MinuteGivenBack(g, c, i, if works then Works else Throws(false)) else g
  }

  lemma JudgeTells(s: State, g: State, c: Config, i: nat, w: Work, total: int, token: Token, works: bool)
    requires Meanwhile(s, g, i) && w.Counting? && token.Held? && token.minute == Minute(w.at)
    ensures var (limiter, r) := Verdict(g.limiter, c, s.callers[i].request.priority, w.at, g.now, w.previous, total, works);
            Told(s, AloneGivenBack(MinuteJudged(g, c, i, w, total, token), c, i, works), i, w.retry, limiter, r)
  {
    var p := s.callers[i].request.priority;
    if OverCeiling(w.previous, total, w.at, c.caps.Of(p)) {
      GiveBackTells(s, MinuteJudged(g, c, i, w, total, token), c, i, works);
    } else {
      AnswerTells(s, g, i, w.retry, Admitted(p, w.at, c.caps.Of(p), w.previous, total), token);
    }
  }

  lemma CountTells(s: State, g: State, c: Config, i: nat, works: bool)
    requires Meanwhile(s, g, i) && g.callers[i].phase.work.Counting?
    ensures var w := g.callers[i].phase.work;
            var taken := Incremented(g.limiter.buckets, Minute(w.at), 1, g.now, BUCKET_TTL_SECONDS);
            var (limiter, r) := Verdict(g.limiter.(buckets := taken), c, s.callers[i].request.priority, w.at, g.now, w.previous,
                                        ReadBucket(taken, Minute(w.at), g.now), works);
            Told(s, AloneGivenBack(MinuteCounted(g, c, i, Works), c, i, works), i, w.retry, limiter, r)
  {
    var w := g.callers[i].phase.work;
    var m := Minute(w.at);
    var counted := BucketAfter(g, m, 1, Works).(orders := g.orders + 1);
    var total := ReadBucket(counted.limiter.buckets, m, g.now);
    JudgeTells(s, counted, c, i, w, total, Held(m, Slip(g.orders, total), g.now < (m + 2) * MINUTE_MS), works);
  }

  /** The steps of one `tryAcquire` with nobody else moving, under the fault its store meets. */
  function AloneAcquired(s: State, c: Config, i: nat, fault: StoreFault): State
    requires Enabled(s, BeginAcquire(i))
  {
    var begun := AcquireBegun(s, c, i);
    if !begun.callers[i].phase.work.Reading? then begun
    else if fault == ReadFails then MinuteRead(begun, c, i, true)
    else if fault == IncrementFails then MinuteCounted(MinuteRead(begun, c, i, false), c, i, Throws(false))
    else AloneGivenBack(MinuteCounted(MinuteRead(begun, c, i, false), c, i, Works), c, i, fault != RefundFails)
  }

  /** One caller's steps alone are the limiter's acquire: the same limiter afterwards, and the same answer. */
  lemma AloneIsAcquire(s: State, c: Config, i: nat, fault: StoreFault)
    requires Enabled(s, BeginAcquire(i))
    ensures var (limiter, r) := Acquire(s.limiter, c.caps, c.headerReserve, s.callers[i].request.priority, s.now, fault);
            Told(s, AloneAcquired(s, c, i, fault), i, s.callers[i].phase.work.retry, limiter, r)
  {
    var p, retry := s.callers[i].request.priority, s.callers[i].phase.work.retry;
    if p == Background && HeaderExhausted(s.limiter, c.headerReserve, Minute(s.now)) {
      AnswerTells(s, s, i, retry, HeaderDenied(p, s.now, c.caps.Of(p)), NoToken);
    } else {
      AloneFromRead(s, c, i, fault);
    }
  }

  /** Past the header: the caller has begun, and read the bucket before its own. */
  lemma AloneBegins(s: State, c: Config, i: nat) returns (reading: State, counting: State)
    requires Enabled(s, BeginAcquire(i))
    requires !(s.callers[i].request.priority == Background && HeaderExhausted(s.limiter, c.headerReserve, Minute(s.now)))
    ensures AcquireBegun(s, c, i) == reading && Meanwhile(s, reading, i) && reading.limiter == s.limiter
    ensures reading.callers[i].phase.work == Reading(s.callers[i].phase.work.retry, s.now)
    ensures MinuteRead(reading, c, i, false) == counting && Meanwhile(s, counting, i) && counting.limiter == s.limiter
    ensures counting.callers[i].phase.work ==
            Counting(s.callers[i].phase.work.retry, s.now, ReadBucket(s.limiter.buckets, Minute(s.now) - 1, s.now))
  {
    reading := AcquireBegun(s, c, i);
    counting := MinuteRead(reading, c, i, false);
  }

  lemma AloneFromRead(s: State, c: Config, i: nat, fault: StoreFault)
    requires Enabled(s, BeginAcquire(i))
    requires !(s.callers[i].request.priority == Background && HeaderExhausted(s.limiter, c.headerReserve, Minute(s.now)))
    ensures var (limiter, r) := Acquire(s.limiter, c.caps, c.headerReserve, s.callers[i].request.priority, s.now, fault);
            Told(s, AloneAcquired(s, c, i, fault), i, s.callers[i].phase.work.retry, limiter, r)
  {
    var p, retry := s.callers[i].request.priority, s.callers[i].phase.work.retry;
    var reading, counting := AloneBegins(s, c, i);
    match fault
    case ReadFails => PolicyTells(s, reading, c, i, retry, s.now);
    case IncrementFails => PolicyTells(s, counting, c, i, retry, s.now);
    case _ =>
      AcquireIsVerdict(s.limiter, c, p, s.now, fault);
      CountTells(s, counting, c, i, fault != RefundFails);
  }

  /** The steps of one `reserve` with nobody else moving. */
  function AloneReserved(s: State, c: Config, i: nat): State
    requires At(s, i, Leading(Reserving))
  {
    var judged := Next(DayCounted(s, i, Works), c, JudgeDay(i));
    if judged.callers[i].phase.work.Refusing? then Next(judged, c, GiveBackDay(i, Works)) else judged
  }

  /** The counter and the decision are those of the tracker's reserve. */
  lemma AloneIsReserve(s: State, c: Config, i: nat)
    requires At(s, i, Leading(Reserving))
    ensures var t := AloneReserved(s, c, i);
            var (counts, r) := Quota.Reserved(c.quota, s.remote, s.counts, 1, Some(s.callers[i].request.priority), s.now);
            t.counts == counts && t.callers[i].phase == Leading(if r.allowed then Requesting else Releasing(Denied))
  {}

  // ----------------------------------------------- the wait, however callers interleave

  predicate Asleep(s: State, i: nat) { Working(s, i) && s.callers[i].phase.work.Sleeping? }

  /** If caller `i` sleeps in `t`, this is its first refusal, it is not live, and it sleeps for `ms` from now. */
  predicate SleepsFor(s: State, t: State, i: nat, retry: bool, ms: int)
    requires i < |s.callers|
  {
    Asleep(t, i) ==> !retry && s.callers[i].request.priority != Live && t.callers[i].phase.work.until == s.now + ms
  }

  /** Refused by the header or the fail policy, which refuse background only: for the rest of the minute. */
  predicate SleepsOutMinute(s: State, t: State, i: nat, retry: bool, at: int)
    requires i < |s.callers|
  {
    SleepsFor(s, t, i, retry, (at / 60_000 + 1) * 60_000 - at) && (Asleep(t, i) ==> s.callers[i].request.priority == Background)
  }

  /** By the ceiling: for the retry time of the two counts it read, at most a minute. */
  predicate SleepsOutRetry(s: State, t: State, c: Config, i: nat, retry: bool, at: int, previous: int, current: int)
    requires i < |s.callers|
  {
    SleepsFor(s, t, i, retry,
              Min(60_000, Max0(RetryAfterMs(previous, current, c.caps.Of(s.callers[i].request.priority), at % 60_000, (at / 60_000 + 1) * 60_000 - at))))
  }

  lemma AnswerSleeps(s: State, base: State, i: nat, retry: bool, r: AcquireResult, token: Token)
    requires Working(s, i) && SameCallers(s, base)
    ensures SleepsFor(s, WithAnswer(base, i, retry, r, token), i, retry,
                      Max0(Min(60_000, if r.retryAfterMs.Some? then r.retryAfterMs.value else r.msUntilNextMinute)))
    ensures Asleep(WithAnswer(base, i, retry, r, token), i) ==> !r.allowed
  {}

  lemma PolicySleeps(s: State, base: State, c: Config, i: nat, retry: bool, at: int)
    requires Working(s, i) && SameCallers(s, base)
    ensures SleepsOutMinute(s, AnsweredByPolicy(base, c, i, retry, at), i, retry, at)
  {
    var p := s.callers[i].request.priority;
    AnswerSleeps(s, base, i, retry, FailPolicy(p, at, c.caps.Of(p)), FailOpen);
  }

  lemma HeaderSleeps(s: State, c: Config, i: nat)
    requires Enabled(s, BeginAcquire(i))
    ensures SleepsOutMinute(s, AcquireBegun(s, c, i), i, s.callers[i].phase.work.retry, s.now)
  {
    var p := s.callers[i].request.priority;
    AnswerSleeps(s, s, i, s.callers[i].phase.work.retry, HeaderDenied(p, s.now, c.caps.Of(p)), NoToken);
  }

  lemma JudgedSleeps(s: State, base: State, c: Config, i: nat, w: Work, total: int, token: Token)
    requires Working(s, i) && SameCallers(s, base) && w.Counting?
    ensures !Asleep(MinuteJudged(base, c, i, w, total, token), i)
  {
    var p := s.callers[i].request.priority;
    AnswerSleeps(s, base, i, w.retry, Admitted(p, w.at, c.caps.Of(p), w.previous, total), token);
  }

  lemma CountSleeps(s: State, c: Config, i: nat, fault: Fault)
    requires Enabled(s, CountMinute(i, fault))
    ensures SleepsOutMinute(s, MinuteCounted(s, c, i, fault), i, s.callers[i].phase.work.retry, s.callers[i].phase.work.at)
  {
    var w := s.callers[i].phase.work;
    var m := Minute(w.at);
    var after := BucketAfter(s, m, 1, fault);
    match fault
    case Throws(landed) => PolicySleeps(s, if landed then StrandMinute(after, m) else after, c, i, w.retry, w.at);
    case Works =>
      var total := ReadBucket(after.limiter.buckets, m, s.now);
      JudgedSleeps(s, after.(orders := s.orders + 1), c, i, w, total, Held(m, Slip(s.orders, total), s.now < (m + 2) * MINUTE_MS));
  }

  lemma GiveBackSleeps(s: State, c: Config, i: nat, fault: Fault)
    requires Enabled(s, GiveBackMinute(i, fault))
    ensures var t, w := MinuteGivenBack(s, c, i, fault), s.callers[i].phase.work;
            if fault == Works then SleepsOutRetry(s, t, c, i, w.retry, w.at, w.previous, w.total - 1)
            else SleepsOutMinute(s, t, i, w.retry, w.at)
  {
    var p, w := s.callers[i].request.priority, s.callers[i].phase.work;
    var m, after := Minute(w.at), BucketAfter(s, Minute(w.at), -1, fault);
    match fault
    case Throws(landed) => PolicySleeps(s, if landed then after else StrandMinute(after, m), c, i, w.retry, w.at);
    case Works => AnswerSleeps(s, after, i, w.retry, CapDenied(p, w.at, c.caps.Of(p), w.previous, w.total), NoToken);
  }

  /** The steps in which a caller can be refused a minute token. */
  predicate Refuses(step: Step) { step.BeginAcquire? || step.ReadMinute? || step.CountMinute? || step.GiveBackMinute? }

  /**
    However callers and store faults interleave, a caller only falls asleep on a first refusal, and
    not if it is live: for the rest of the minute it asked in if the header or the fail policy refused
    it, and for the retry time of the two counts it read, at most a minute, if its ceiling did.
  */
  lemma SleepsForTheNamedTime(s: State, c: Config, step: Step)
    requires Refuses(step)
    requires Enabled(s, step)
    ensures var t, w := Next(s, c, step), s.callers[step.caller].phase.work;
            match w
            case Acquiring(retry) => SleepsOutMinute(s, t, step.caller, retry, s.now)
            case Reading(retry, at) => SleepsOutMinute(s, t, step.caller, retry, at)
            case Counting(retry, at, _) => SleepsOutMinute(s, t, step.caller, retry, at)
            case GivingBack(retry, at, previous, total) =>
              if step.fault == Works then SleepsOutRetry(s, t, c, step.caller, retry, at, previous, total - 1)
              else SleepsOutMinute(s, t, step.caller, retry, at)
            case _ => true
  {
    match step
    case BeginAcquire(i) => HeaderSleeps(s, c, i);
    case ReadMinute(i, throws) => PolicySleeps(s, s, c, i, s.callers[i].phase.work.retry, s.callers[i].phase.work.at);
    case CountMinute(i, fault) => CountSleeps(s, c, i, fault);
    case GiveBackMinute(i, fault) => GiveBackSleeps(s, c, i, fault);
  }

  predicate StoreThrows(step: Step) {
    (step.ReadMinute? && step.throws) || ((step.CountMinute? || step.GiveBackMinute?) && step.fault.Throws?)
  }

  /** Caller `i` of `s` goes on without a token if it is live or near-live, and not if it is background. */
  predicate FailedOpen(s: State, t: State, i: nat) {
    && i < |s.callers| && i < |t.callers|
    && if s.callers[i].request.priority == Background then t.callers[i].phase != Leading(Reserving) && t.callers[i].token == NoToken
       else t.callers[i].phase == Leading(Reserving) && t.callers[i].token == FailOpen
  }

  lemma PolicyLets(s: State, base: State, c: Config, i: nat, retry: bool, at: int)
    requires Working(s, i) && SameCallers(s, base)
    ensures FailedOpen(s, AnsweredByPolicy(base, c, i, retry, at), i)
  {}

  /** Wherever the limiter's store throws, live and near-live callers go on without a token, and background ones do not. */
  lemma ThrowingStoreFailsOpen(s: State, c: Config, step: Step)
    requires StoreThrows(step)
    requires Enabled(s, step)
    ensures FailedOpen(s, Next(s, c, step), step.caller)
  {
    var i := step.caller;
    var w := s.callers[i].phase.work;
    if step.ReadMinute? {
      PolicyLets(s, s, c, i, w.retry, w.at);
    } else if step.CountMinute? {
      var after := BucketAfter(s, Minute(w.at), 1, step.fault);
      PolicyLets(s, if step.fault.landed then StrandMinute(after, Minute(w.at)) else after, c, i, w.retry, w.at);
    } else {
      var after := BucketAfter(s, Minute(w.at), -1, step.fault);
      PolicyLets(s, if step.fault.landed then after else StrandMinute(after, Minute(w.at)), c, i, w.retry, w.at);
    }
  }

  /** A sleeper leaves its sleep when its time has come, to ask a second time, or by an exception. */
  lemma WakesInTime(s: State, c: Config, step: Step, i: nat)
    requires Asleep(s, i) && Enabled(s, step)
    ensures i < |Next(s, c, step).callers|
    ensures var k, t := s.callers[i], Next(s, c, step).callers[i];
            t == k || step == Reject(i) || (k.phase.work.until <= s.now && t == k.(phase := Leading(Acquiring(true))))
  {
    if Internal(step) {
      InternalMoves(s, c, step);
    } else {
      OutsideLeaves(s, c, step, i);
    }
  }

  lemma OutsideLeaves(s: State, c: Config, step: Step, i: nat)
    requires Asleep(s, i) && Enabled(s, step) && !Internal(step)
    ensures i < |Next(s, c, step).callers| && Next(s, c, step).callers[i] == s.callers[i]
  {}
}
