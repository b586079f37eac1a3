/**
  What a caller of the minute limiter may rely on after any run: an exact retry time, and
  headroom that lower classes cannot take from live calls.
*/
module MinuteGuarantees {
  import opened Common
  import opened Sums
  import opened MinuteLimiter
  import opened MinuteRuns

  // ------------------------------------------------------------ retry time

  lemma QuotientBounds(a: int, b: int)
    requires 0 < b
    ensures a / b * b <= a < (a / b + 1) * b
  {
    assert a == b * (a / b) + a % b;
  }

  lemma DivideFloor(y: int, a: int, b: int)
    requires 0 < b
    ensures y * b <= a <==> y <= a / b
  {
    QuotientBounds(a, b);
    if y <= a / b {
      MulOrder(y, a / b, b);
    } else {
      MulOrder(a / b + 1, y, b);
    }
  }

  /**
    The scaled estimate `x` milliseconds after the start of the minute of a denial that
    saw `previous` and `current`, if nothing else is spent.
  */
  function LaterEstimate(previous: int, current: int, x: int): int {
    if x < MINUTE_MS then Weighted(previous, current, x)
    else if x < 2 * MINUTE_MS then Weighted(current, 0, x - MINUTE_MS)
    else 0
  }

  predicate FitsLater(previous: int, current: int, ceiling: int, x: int) {
    LaterEstimate(previous, current, x) + MINUTE_MS <= ceiling * MINUTE_MS
  }

  /** In the same minute, room opens once enough of the previous bucket has decayed. */
  lemma FitsWithinMinute(previous: int, current: int, ceiling: int, x: int)
    requires 0 < previous && 0 <= x < MINUTE_MS
    ensures FitsLater(previous, current, ceiling, x) <==>
            MINUTE_MS - MINUTE_MS * (ceiling - current - 1) / previous <= x
  {
    DivideFloor(MINUTE_MS - x, MINUTE_MS * (ceiling - current - 1), previous);
    assert (MINUTE_MS - x) * previous == previous * (MINUTE_MS - x);
  }

  /** In the next minute, the current bucket is the one that decays. */
  lemma FitsNextMinute(previous: int, current: int, ceiling: int, x: int)
    requires 0 < current && MINUTE_MS <= x < 2 * MINUTE_MS
    ensures FitsLater(previous, current, ceiling, x) <==>
            MINUTE_MS + MINUTE_MS - MINUTE_MS * (ceiling - 1) / current <= x
  {
    var y := 2 * MINUTE_MS - x;
    DivideFloor(y, MINUTE_MS * (ceiling - 1), current);
    assert y * current == current * y;
  }

  /** `RetryAfterMs` is the first whole millisecond at which the call fits. */
  lemma RetryArithmetic(previous: int, current: int, ceiling: int, e: int)
    requires 0 <= previous && 0 <= current && 1 <= ceiling && 0 <= e < MINUTE_MS
    requires !FitsLater(previous, current, ceiling, e)
    ensures var r := RetryAfterMs(previous, current, ceiling, e, MINUTE_MS - e);
            && 0 < r
            && FitsLater(previous, current, ceiling, e + r)
            && forall x :: e <= x < e + r ==> !FitsLater(previous, current, ceiling, x)
  {
    var r := RetryAfterMs(previous, current, ceiling, e, MINUTE_MS - e);
    var room := ceiling - current - 1;
    if previous > 0 {
      FitsWithinMinute(previous, current, ceiling, e);
      DivideFloor(0, MINUTE_MS * room, previous);
      DivideFloor(1, MINUTE_MS * room, previous);
    }
    if current > 0 {
      DivideFloor(0, MINUTE_MS * (ceiling - 1), current);
      DivideFloor(MINUTE_MS, MINUTE_MS * (ceiling - 1), current);
      FitsNextMinute(previous, current, ceiling, MINUTE_MS);
    }
    forall x | e <= x < e + r
      ensures !FitsLater(previous, current, ceiling, x)
    {
      if x < MINUTE_MS {
        if previous > 0 { FitsWithinMinute(previous, current, ceiling, x); }
      } else if x < 2 * MINUTE_MS {
        FitsNextMinute(previous, current, ceiling, x);
      }
    }
    var last := e + r;
    if last < MINUTE_MS {
      FitsWithinMinute(previous, current, ceiling, last);
    } else if last < 2 * MINUTE_MS && current > 0 {
      FitsNextMinute(previous, current, ceiling, last);
    }
  }

  /** A reader who comes back to a quiet store sees the decayed estimate. */
  lemma EstimateLater(b: Buckets, now: int, t: int)
    requires Tidy(b, now) && now <= t
    ensures Estimate(b, t) ==
            LaterEstimate(ReadBucket(b, Minute(now) - 1, now), ReadBucket(b, Minute(now), now), t - Minute(now) * MINUTE_MS)
  {
    var m := Minute(now);
    if Minute(t) == m {
      ReadStable(b, m - 1, now, t);
      ReadStable(b, m, now, t);
    } else if Minute(t) == m + 1 {
      ReadStable(b, m, now, t);
      NoLaterBucket(b, m + 1, now, t);
    } else {
      NoLaterBucket(b, Minute(t), now, t);
      NoLaterBucket(b, Minute(t) - 1, now, t);
    }
  }

  predicate Allowed(st: LimiterState, c: Config, p: Priority, t: int) {
    Acquire(st, c.caps, c.headerReserve, p, t, NoFault).1.allowed
  }

  /** What a denial leaves behind decides every later attempt of that class on a quiet limiter. */
  lemma AfterDenial(st0: LimiterState, c: Config, p: Priority, now: int, t: int)
    requires c.caps.Valid() && Tidy(st0.buckets, now) && HeaderInPast(st0, now) && now <= t
    requires Acquire(st0, c.caps, c.headerReserve, p, now, NoFault).1.reason == Some(MinuteCap)
    ensures var st := Acquire(st0, c.caps, c.headerReserve, p, now, NoFault).0;
            Allowed(st, c, p, t) <==>
            FitsLater(ReadBucket(st0.buckets, Minute(now) - 1, now), ReadBucket(st0.buckets, Minute(now), now),
                      c.caps.Of(p), t - Minute(now) * MINUTE_MS)
  {
    var st := Acquire(st0, c.caps, c.headerReserve, p, now, NoFault).0;
    AcquireDecides(st0, c.caps, c.headerReserve, p, now, now);
    assert st.remote == st0.remote;
    AcquireDecides(st, c.caps, c.headerReserve, p, t, now);
    EstimateLater(st.buckets, now, t);
    assert ReadBucket(st.buckets, Minute(now), now) == ReadBucket(st0.buckets, Minute(now), now);
    assert ReadBucket(st.buckets, Minute(now) - 1, now) == ReadBucket(st0.buckets, Minute(now) - 1, now);
  }

  /** The retry time a denial carries, in terms of the two buckets it read. */
  lemma DenialRetryTime(st0: LimiterState, c: Config, p: Priority, now: int)
    requires Tidy(st0.buckets, now)
    requires Acquire(st0, c.caps, c.headerReserve, p, now, NoFault).1.reason == Some(MinuteCap)
    ensures Acquire(st0, c.caps, c.headerReserve, p, now, NoFault).1.retryAfterMs ==
            Some(RetryAfterMs(ReadBucket(st0.buckets, Minute(now) - 1, now), ReadBucket(st0.buckets, Minute(now), now),
                              c.caps.Of(p), Elapsed(now), MINUTE_MS - Elapsed(now)))
  {
    ReadIncremented(st0.buckets, Minute(now), 1, now, Minute(now), now);
  }

  /** The same on one denial: the wait it names is the first whole millisecond that fits. */
  lemma DenialIsExact(st0: LimiterState, c: Config, p: Priority, now: int)
    requires c.caps.Valid() && Tidy(st0.buckets, now) && HeaderInPast(st0, now)
    requires Acquire(st0, c.caps, c.headerReserve, p, now, NoFault).1.reason == Some(MinuteCap)
    ensures var previous, current := ReadBucket(st0.buckets, Minute(now) - 1, now), ReadBucket(st0.buckets, Minute(now), now);
            var r := RetryAfterMs(previous, current, c.caps.Of(p), Elapsed(now), MINUTE_MS - Elapsed(now));
            && Acquire(st0, c.caps, c.headerReserve, p, now, NoFault).1.retryAfterMs == Some(r)
            && 0 < r && FitsLater(previous, current, c.caps.Of(p), Elapsed(now) + r)
            && forall x :: Elapsed(now) <= x < Elapsed(now) + r ==> !FitsLater(previous, current, c.caps.Of(p), x)
  {
    DenialRetryTime(st0, c, p, now);
    AcquireDecides(st0, c.caps, c.headerReserve, p, now, now);
    RetryArithmetic(ReadBucket(st0.buckets, Minute(now) - 1, now), ReadBucket(st0.buckets, Minute(now), now), c.caps.Of(p), Elapsed(now));
  }

  predicate MinuteCapDenied(st0: LimiterState, c: Config, p: Priority, now: int) {
    Acquire(st0, c.caps, c.headerReserve, p, now, NoFault).1.reason == Some(MinuteCap)
  }

  /** With no other traffic the class is refused at every whole millisecond before `wait` has passed, and admitted then. */
  ghost predicate FreeAfter(st: LimiterState, c: Config, p: Priority, now: int, wait: int) {
    Allowed(st, c, p, now + wait) && forall t :: now <= t < now + wait ==> !Allowed(st, c, p, t)
  }

  /** The denial names a wait, and it is exact. */
  ghost predicate WaitIsExact(st0: LimiterState, c: Config, p: Priority, now: int) {
    var (st, r) := Acquire(st0, c.caps, c.headerReserve, p, now, NoFault);
    r.retryAfterMs.Some? && 0 < r.retryAfterMs.value && FreeAfter(st, c, p, now, r.retryAfterMs.value)
  }

  /** `st` admits the class at `t` exactly if the call fits then, by the two buckets alone. */
  ghost predicate DecidedBy(st: LimiterState, c: Config, p: Priority, now: int, previous: int, current: int) {
    forall t :: now <= t ==> (Allowed(st, c, p, t) <==> FitsLater(previous, current, c.caps.Of(p), t - Minute(now) * MINUTE_MS))
  }

  lemma FreeWhenItFits(st: LimiterState, c: Config, p: Priority, now: int, previous: int, current: int, wait: int)
    requires DecidedBy(st, c, p, now, previous, current) && 0 < wait
    requires FitsLater(previous, current, c.caps.Of(p), Elapsed(now) + wait)
    requires forall x :: Elapsed(now) <= x < Elapsed(now) + wait ==> !FitsLater(previous, current, c.caps.Of(p), x)
    ensures FreeAfter(st, c, p, now, wait)
  {
    assert Allowed(st, c, p, now + wait) <==> FitsLater(previous, current, c.caps.Of(p), Elapsed(now) + wait);
    forall t | now <= t < now + wait
      ensures !Allowed(st, c, p, t)
    {
      assert Elapsed(now) <= t - Minute(now) * MINUTE_MS < Elapsed(now) + wait;
    }
  }

  /** From here on only the two buckets the denial read decide. */
  lemma DenialDecides(st0: LimiterState, c: Config, p: Priority, now: int) returns (previous: int, current: int, wait: int)
    requires c.caps.Valid() && Tidy(st0.buckets, now) && HeaderInPast(st0, now)
    requires MinuteCapDenied(st0, c, p, now)
    ensures Acquire(st0, c.caps, c.headerReserve, p, now, NoFault).1.retryAfterMs == Some(wait) && 0 < wait
    ensures FitsLater(previous, current, c.caps.Of(p), Elapsed(now) + wait)
    ensures forall x :: Elapsed(now) <= x < Elapsed(now) + wait ==> !FitsLater(previous, current, c.caps.Of(p), x)
    ensures DecidedBy(Acquire(st0, c.caps, c.headerReserve, p, now, NoFault).0, c, p, now, previous, current)
  {
    DenialIsExact(st0, c, p, now);
    previous, current := ReadBucket(st0.buckets, Minute(now) - 1, now), ReadBucket(st0.buckets, Minute(now), now);
    wait := RetryAfterMs(previous, current, c.caps.Of(p), Elapsed(now), MINUTE_MS - Elapsed(now));
    forall t | now <= t
      ensures Allowed(Acquire(st0, c.caps, c.headerReserve, p, now, NoFault).0, c, p, t) <==>
              FitsLater(previous, current, c.caps.Of(p), t - Minute(now) * MINUTE_MS)
    {
      AfterDenial(st0, c, p, now, t);
    }
  }

  lemma RetryAfterDenial(st0: LimiterState, c: Config, p: Priority, now: int)
    requires c.caps.Valid() && Tidy(st0.buckets, now) && HeaderInPast(st0, now)
    requires MinuteCapDenied(st0, c, p, now)
    ensures WaitIsExact(st0, c, p, now)
  {
    var previous, current, wait := DenialDecides(st0, c, p, now);
    FreeWhenItFits(Acquire(st0, c.caps, c.headerReserve, p, now, NoFault).0, c, p, now, previous, current, wait);
  }

  lemma AfterRun(clock: int, c: Config, events: seq<Event>, now: int) returns (st: LimiterState)
    requires c.caps.Valid() && RunOk(Init(clock), c, events) && Run(Init(clock), c, events).clock <= now
    ensures st == Run(Init(clock), c, events).st && Tidy(st.buckets, now) && HeaderInPast(st, now)
  {
    InitInv(clock, c);
    RunKeepsInv(Init(clock), c, events);
    st := Run(Init(clock), c, events).st;
    ClockMoves(Run(Init(clock), c, events), c, now);
  }

  /** After any run, a `minute_cap` denial names the exact wait. */
  lemma {:induction false} RetryIsExact(clock: int, c: Config, events: seq<Event>, p: Priority, now: int)
    requires c.caps.Valid() && RunOk(Init(clock), c, events)
    requires Run(Init(clock), c, events).clock <= now
    requires MinuteCapDenied(Run(Init(clock), c, events).st, c, p, now)
    ensures WaitIsExact(Run(Init(clock), c, events).st, c, p, now)
  {
    var st := AfterRun(clock, c, events, now);
    RetryAfterDenial(st, c, p, now);
  }

  predicate HeaderRefused(st0: LimiterState, c: Config, p: Priority, now: int) {
    Acquire(st0, c.caps, c.headerReserve, p, now, NoFault).1.reason == Some(ProviderMinuteHeader)
  }

  /** Past the minute of the header it leaves the decision to the buckets. */
  lemma HeaderForgotten(st: LimiterState, c: Config, p: Priority, now: int, t: int)
    requires c.caps.Valid() && Tidy(st.buckets, now) && HeaderInPast(st, now) && Minute(now) < Minute(t)
    ensures Allowed(st, c, p, t) <==>
            FitsLater(ReadBucket(st.buckets, Minute(now) - 1, now), ReadBucket(st.buckets, Minute(now), now), c.caps.Of(p), t - Minute(now) * MINUTE_MS)
  {
    assert now <= t;
    AcquireDecides(st, c.caps, c.headerReserve, p, t, now);
    EstimateLater(st.buckets, now, t);
  }

  /** A header refusal names the rest of its minute, takes nothing, and holds until the minute ends. */
  lemma HeaderHolds(st: LimiterState, c: Config, p: Priority, now: int)
    requires HeaderRefused(st, c, p, now)
    ensures var (after, r) := Acquire(st, c.caps, c.headerReserve, p, now, NoFault);
            after == st && r.retryAfterMs == Some((Minute(now) + 1) * MINUTE_MS - now)
    ensures forall t :: now <= t < (Minute(now) + 1) * MINUTE_MS ==> !Allowed(st, c, p, t)
  {
    forall t | now <= t < (Minute(now) + 1) * MINUTE_MS
      ensures !Allowed(st, c, p, t)
    {
      assert Minute(t) == Minute(now);
    }
  }

  /** A call fits at the next boundary exactly if the minute just ended is below the ceiling. */
  lemma FitsAtBoundary(previous: int, current: int, ceiling: int)
    ensures FitsLater(previous, current, ceiling, MINUTE_MS) <==> current < ceiling
  {}

  /**
    After any run, a `provider_minute_header` denial names the rest of the minute. With no other
    traffic and no newer header the class is refused until then; from then on it is admitted exactly
    when it fits by the buckets, so at the named time exactly if the minute's bucket is below its ceiling.
  */
  lemma {:induction false} HeaderRetry(clock: int, c: Config, events: seq<Event>, p: Priority, now: int)
    requires c.caps.Valid() && RunOk(Init(clock), c, events) && Run(Init(clock), c, events).clock <= now
    requires HeaderRefused(Run(Init(clock), c, events).st, c, p, now)
    ensures var (st, r) := Acquire(Run(Init(clock), c, events).st, c.caps, c.headerReserve, p, now, NoFault);
            var previous, current := ReadBucket(st.buckets, Minute(now) - 1, now), ReadBucket(st.buckets, Minute(now), now);
            && r.retryAfterMs.Some? && Minute(now + r.retryAfterMs.value) == Minute(now) + 1
            && (forall t :: now <= t < now + r.retryAfterMs.value ==> !Allowed(st, c, p, t))
            && (forall t :: now + r.retryAfterMs.value <= t ==>
                  (Allowed(st, c, p, t) <==> FitsLater(previous, current, c.caps.Of(p), t - Minute(now) * MINUTE_MS)))
            && (Allowed(st, c, p, now + r.retryAfterMs.value) <==> current < c.caps.Of(p))
  {
    var st := AfterRun(clock, c, events, now);
    HeaderHolds(st, c, p, now);
    var next := (Minute(now) + 1) * MINUTE_MS;
    forall t | next <= t
      ensures Allowed(st, c, p, t) <==>
              FitsLater(ReadBucket(st.buckets, Minute(now) - 1, now), ReadBucket(st.buckets, Minute(now), now), c.caps.Of(p), t - Minute(now) * MINUTE_MS)
    {
      HeaderForgotten(st, c, p, now, t);
    }
    FitsAtBoundary(ReadBucket(st.buckets, Minute(now) - 1, now), ReadBucket(st.buckets, Minute(now), now), c.caps.Of(p));
  }

  /** No event of the run brings a header reading. */
  predicate NoReading(events: seq<Event>) {
    forall i :: 0 <= i < |events| && events[i].Observe? ==> events[i].remaining.None?
  }

  lemma {:induction false} ReadingStays(w: World, c: Config, events: seq<Event>)
    requires RunOk(w, c, events) && NoReading(events)
    ensures Run(w, c, events).st.remote == w.st.remote
    decreases |events|
  {
    if |events| > 0 {
      assert events[0].Observe? ==> events[0].remaining.None?;
      assert Step(w, c, events[0]).st.remote == w.st.remote;
      assert NoReading(events[1..]);
      ReadingStays(Step(w, c, events[0]), c, events[1..]);
    }
  }

  lemma {:induction false} RunSplit(w: World, c: Config, xs: seq<Event>, ys: seq<Event>)
    requires RunOk(w, c, xs + ys)
    ensures RunOk(w, c, xs) && RunOk(Run(w, c, xs), c, ys) && Run(w, c, xs + ys) == Run(Run(w, c, xs), c, ys)
    decreases |xs|
  {
    if |xs| == 0 {
      assert xs + ys == ys;
    } else {
      assert (xs + ys)[1..] == xs[1..] + ys;
      RunSplit(Step(w, c, xs[0]), c, xs[1..], ys);
    }
  }

  /**
    The header over any run. If the last reading was `r`, at `seen`, the header refuses a call at `now`
    exactly if it is a background call, of the minute of the reading, and `r` is at most the reserve;
    a reading of another minute refuses nobody, nor does any reading the other classes.
  */
  lemma {:induction false} HeaderRefusesIff(clock: int, c: Config, front: seq<Event>, seen: int, r: int, rest: seq<Event>, p: Priority, now: int, fault: StoreFault)
    requires RunOk(Init(clock), c, front + ([Observe(seen, Some(r))] + rest)) && NoReading(rest)
    ensures Acquire(Run(Init(clock), c, front + ([Observe(seen, Some(r))] + rest)).st, c.caps, c.headerReserve, p, now, fault).1.reason
              == Some(ProviderMinuteHeader) <==>
            p == Background && now / 60_000 == seen / 60_000 && r <= c.headerReserve
  {
    var e := Observe(seen, Some(r));
    RunSplit(Init(clock), c, front, [e] + rest);
    var w := Run(Init(clock), c, front);
    assert ([e] + rest)[1..] == rest;
    ReadingStays(Step(w, c, e), c, rest);
    HeaderDecides(Run(Init(clock), c, front + ([e] + rest)).st, c, p, now, fault);
  }

  /** A run without a reading: the header refuses nobody. */
  lemma {:induction false} NoReadingNoRefusal(clock: int, c: Config, events: seq<Event>, p: Priority, now: int, fault: StoreFault)
    requires RunOk(Init(clock), c, events) && NoReading(events)
    ensures Acquire(Run(Init(clock), c, events).st, c.caps, c.headerReserve, p, now, fault).1.reason != Some(ProviderMinuteHeader)
  {
    ReadingStays(Init(clock), c, events);
    HeaderDecides(Run(Init(clock), c, events).st, c, p, now, fault);
  }

  lemma HeaderDecides(st: LimiterState, c: Config, p: Priority, now: int, fault: StoreFault)
    ensures Acquire(st, c.caps, c.headerReserve, p, now, fault).1.reason == Some(ProviderMinuteHeader) <==>
            p == Background && st.remote.Some? && st.remote.value.epochMinute == now / 60_000 && st.remote.value.remaining <= c.headerReserve
  {}

  // -------------------------------------------------------------- headroom

  /** A run of live acquires at `times`, one after the other. */
  function LiveCalls(times: seq<int>): seq<Event> {
    if |times| == 0 then [] else [TryAcquire(times[0], Live)] + LiveCalls(times[1..])
  }

  /** The log such a run writes if every call is admitted. */
  function Tickets(times: seq<int>): seq<Ticket> {
    if |times| == 0 then [] else [Ticket(times[0], false)] + Tickets(times[1..])
  }

  predicate Nondecreasing(start: int, times: seq<int>)
    decreases |times|
  {
    |times| == 0 || (start <= times[0] && Nondecreasing(times[0], times[1..]))
  }

  /** One live call that fits is admitted, logged, and moves the estimate by one. */
  lemma LiveCallAdmitted(w: World, c: Config, at: int)
    requires Inv(w, c) && c.caps.Valid() && w.clock <= at
    requires Estimate(w.st.buckets, at) + MINUTE_MS <= c.caps.live * MINUTE_MS
    ensures var w' := Step(w, c, TryAcquire(at, Live));
            && Inv(w', c) && w'.clock == at && w'.log == w.log + [Ticket(at, false)]
            && Estimate(w'.st.buckets, at) == Estimate(w.st.buckets, at) + MINUTE_MS
  {
    AcquireDecides(w.st, c.caps, c.headerReserve, Live, at, w.clock);
    StepKeepsInv(w, c, TryAcquire(at, Live));
  }

  lemma {:induction false} RunCons(w: World, c: Config, e: Event, rest: seq<Event>)
    requires EventOk(w, e) && RunOk(Step(w, c, e), c, rest)
    ensures RunOk(w, c, [e] + rest) && Run(w, c, [e] + rest) == Run(Step(w, c, e), c, rest)
  {
    assert ([e] + rest)[1..] == rest;
  }

  lemma LogsJoin(log: seq<Ticket>, t: Ticket, rest: seq<Ticket>)
    ensures (log + [t]) + rest == log + ([t] + rest)
  {}

  /** Calls at `times` all fit under the live ceiling if nothing else is spent. */
  ghost predicate BurstFits(w: World, c: Config, times: seq<int>) {
    && Inv(w, c) && c.caps.Valid() && Nondecreasing(w.clock, times)
    && Estimate(w.st.buckets, w.clock) + |times| * MINUTE_MS <= c.caps.live * MINUTE_MS
  }

  lemma BurstStep(w: World, c: Config, times: seq<int>)
    requires BurstFits(w, c, times) && 0 < |times|
    ensures var w' := Step(w, c, TryAcquire(times[0], Live));
            BurstFits(w', c, times[1..]) && w'.log == w.log + [Ticket(times[0], false)]
  {
    EstimateDecays(w.st.buckets, w.clock, times[0]);
    LiveCallAdmitted(w, c, times[0]);
  }

  /** If `n` more calls fit under the live ceiling now, the next `n` live calls are all admitted. */
  lemma {:induction false} BurstAdmitted(w: World, c: Config, times: seq<int>)
    requires BurstFits(w, c, times)
    ensures RunOk(w, c, LiveCalls(times)) && Run(w, c, LiveCalls(times)).log == w.log + Tickets(times)
    decreases |times|
  {
    if |times| > 0 {
      BurstStep(w, c, times);
      var w1 := Step(w, c, TryAcquire(times[0], Live));
      BurstAdmitted(w1, c, times[1..]);
      RunCons(w, c, TryAcquire(times[0], Live), LiveCalls(times[1..]));
      LogsJoin(w.log, Ticket(times[0], false), Tickets(times[1..]));
    }
  }

  lemma {:induction false} TicketsLength(times: seq<int>)
    ensures |Tickets(times)| == |times|
  {
    if |times| > 0 {
      TicketsLength(times[1..]);
    }
  }

  predicate NoLiveCalls(events: seq<Event>) {
    forall i :: 0 <= i < |events| ==> events[i].TryAcquire? ==> events[i].p != Live
  }

  lemma LowerClassStep(w: World, c: Config, e: Event)
    requires Inv(w, c) && c.caps.Valid() && EventOk(w, e) && (e.TryAcquire? ==> e.p != Live)
    requires Estimate(w.st.buckets, w.clock) <= c.caps.nearLive * MINUTE_MS
    ensures Estimate(Step(w, c, e).st.buckets, Step(w, c, e).clock) <= c.caps.nearLive * MINUTE_MS
  {
    EstimateDecays(w.st.buckets, w.clock, e.at);
    match e {
      case TryAcquire(at, p) =>
        if !(p == Background && HeaderExhausted(w.st, c.headerReserve, Minute(at))) {
          AcquireDecides(w.st, c.caps, c.headerReserve, p, at, w.clock);
        }
      case Release(at, i) =>
        ReleaseLowersEstimate(w, c, at, i);
      case Observe(at, remaining) =>
    }
  }

  lemma {:induction false} LowerClassesStopEarly(w: World, c: Config, events: seq<Event>)
    requires Inv(w, c) && c.caps.Valid() && RunOk(w, c, events) && NoLiveCalls(events)
    requires Estimate(w.st.buckets, w.clock) <= c.caps.nearLive * MINUTE_MS
    ensures var w' := Run(w, c, events); Estimate(w'.st.buckets, w'.clock) <= c.caps.nearLive * MINUTE_MS
    decreases |events|
  {
    if |events| > 0 {
      StepKeepsInv(w, c, events[0]);
      LowerClassStep(w, c, events[0]);
      assert NoLiveCalls(events[1..]);
      LowerClassesStopEarly(Step(w, c, events[0]), c, events[1..]);
    }
  }

  lemma ReleaseLowersEstimate(w: World, c: Config, at: int, i: nat)
    requires Inv(w, c) && w.clock <= at && i < |w.log| && !w.log[i].released
    ensures Estimate(Step(w, c, Release(at, i)).st.buckets, at) <= Estimate(w.st.buckets, at)
  {
    var k := Minute(w.log[i].at);
    var b, b' := w.st.buckets, Step(w, c, Release(at, i)).st.buckets;
    var m := Minute(at);
    ReadIncremented(b, k, -1, at, m, at);
    ReadIncremented(b, k, -1, at, m - 1, at);
    WeightedMonotone(ReadBucket(b', m - 1, at), ReadBucket(b, m - 1, at), ReadBucket(b', m, at), ReadBucket(b, m, at), Elapsed(at));
  }

  /**
    Headroom. After any run in which only near-live and background calls asked, the next
    C_live - C_nearlive live calls are admitted, whenever they come.
  */
  lemma {:induction false} LiveHeadroom(clock: int, c: Config, events: seq<Event>, times: seq<int>)
    requires c.caps.Valid() && RunOk(Init(clock), c, events) && NoLiveCalls(events)
    requires Nondecreasing(Run(Init(clock), c, events).clock, times)
    requires |times| <= c.caps.live - c.caps.nearLive
    ensures var w := Run(Init(clock), c, events);
            && RunOk(w, c, LiveCalls(times))
            && |Run(w, c, LiveCalls(times)).log| == |w.log| + |times|
  {
    InitInv(clock, c);
    RunKeepsInv(Init(clock), c, events);
    LowerClassesStopEarly(Init(clock), c, events);
    BurstAdmitted(Run(Init(clock), c, events), c, times);
    TicketsLength(times);
  }

  // -------------------------------------------------- how tight the bound is

  lemma {:induction false} RunAppend(w: World, c: Config, xs: seq<Event>, ys: seq<Event>)
    requires RunOk(w, c, xs) && RunOk(Run(w, c, xs), c, ys)
    ensures RunOk(w, c, xs + ys) && Run(w, c, xs + ys) == Run(Run(w, c, xs), c, ys)
    decreases |xs|
  {
    if |xs| == 0 {
      assert xs + ys == ys;
    } else {
      assert (xs + ys)[1..] == xs[1..] + ys;
      RunAppend(Step(w, c, xs[0]), c, xs[1..], ys);
    }
  }

  /** Idle time before the first event of a run changes nothing. */
  lemma {:induction false} IdleFirst(w1: World, w2: World, c: Config, times: seq<int>)
    requires w1.clock <= w2.clock && w2 == w1.(clock := w2.clock)
    requires RunOk(w2, c, LiveCalls(times))
    ensures RunOk(w1, c, LiveCalls(times))
    ensures Run(w1, c, LiveCalls(times)).log == Run(w2, c, LiveCalls(times)).log
  {
    if |times| > 0 {
      assert Step(w1, c, LiveCalls(times)[0]) == Step(w2, c, LiveCalls(times)[0]);
    }
  }

  function Repeat(t: int, n: nat): seq<int> {
    seq(n, i requires 0 <= i < n => t)
  }

  lemma {:induction false} RepeatNondecreasing(start: int, t: int, n: nat)
    requires start <= t
    ensures Nondecreasing(start, Repeat(t, n))
    decreases n
  {
    if n > 0 {
      assert Repeat(t, n)[1..] == Repeat(t, n - 1);
      RepeatNondecreasing(t, t, n - 1);
    }
  }

  lemma {:induction false} SumRepeated(t: int, n: nat, f: Ticket -> int)
    ensures Sum(Tickets(Repeat(t, n)), f) == n * f(Ticket(t, false))
  {
    if n > 0 {
      assert Repeat(t, n)[1..] == Repeat(t, n - 1);
      SumRepeated(t, n - 1, f);
      SumConcat([Ticket(t, false)], Tickets(Repeat(t, n - 1)), f);
      SumAppend([], Ticket(t, false), f);
      assert [] + [Ticket(t, false)] == [Ticket(t, false)];
    }
  }

  /** `n` live calls at one instant, if the estimate there leaves room for them. */
  lemma {:induction false} BurstAt(w: World, c: Config, t: int, n: nat)
    requires Inv(w, c) && c.caps.Valid() && w.clock <= t
    requires Estimate(w.st.buckets, t) + n * MINUTE_MS <= c.caps.live * MINUTE_MS
    ensures RunOk(w, c, LiveCalls(Repeat(t, n)))
    ensures Run(w, c, LiveCalls(Repeat(t, n))).log == w.log + Tickets(Repeat(t, n))
  {
    var w2 := w.(clock := t);
    ClockMoves(w, c, t);
    RepeatNondecreasing(t, t, n);
    BurstAdmitted(w2, c, Repeat(t, n));
    IdleFirst(w, w2, c, Repeat(t, n));
  }

  /** A minute filled at its last millisecond has all but gone a minute later. */
  lemma AlmostDecayed(w: World, c: Config, n: nat)
    requires Inv(w, c) && w.clock <= LAST_MS && w.log == Tickets(Repeat(LAST_MS, n))
    ensures Estimate(w.st.buckets, LAST_MS + MINUTE_MS) == n
  {
    ClockMoves(w, c, LAST_MS);
    SumRepeated(LAST_MS, n, UpTo(0, LAST_MS));
    assert ReadBucket(w.st.buckets, 0, LAST_MS) == InMinute(w.log, 0, LAST_MS) == n;
    ReadStable(w.st.buckets, 0, LAST_MS, LAST_MS + MINUTE_MS);
    NoLaterBucket(w.st.buckets, 1, LAST_MS, LAST_MS + MINUTE_MS);
  }

  /** The most calls 60 seconds can hold: two ceilings, less one for each started 60000 of the ceiling. */
  function MinuteReach(live: nat): nat { live + live * LAST_MS / MINUTE_MS }

  lemma MinuteReachIs(live: nat)
    requires 0 < live
    ensures 2 * live - 1 - (live - 1) / MINUTE_MS == MinuteReach(live)
  {
    assert live * LAST_MS == live * MINUTE_MS - live;
    var q, r := (live - 1) / MINUTE_MS, (live - 1) % MINUTE_MS;
    assert live * LAST_MS == (live - 1 - q) * MINUTE_MS + (MINUTE_MS - 1 - r);
  }

  lemma FloorOf(x: int, live: nat)
    requires x * MINUTE_MS <= live * (MINUTE_MS + LAST_MS)
    ensures x <= MinuteReach(live)
  {
    assert live * (MINUTE_MS + LAST_MS) == live * MINUTE_MS + live * LAST_MS;
  }

  /** No run puts more than that into 60 seconds. */
  lemma {:induction false} SixtySecondsHoldAtMost(clock: int, c: Config, events: seq<Event>, a: int)
    requires c.caps.Valid() && RunOk(Init(clock), c, events)
    ensures InSpan(Run(Init(clock), c, events).log, a, a + MINUTE_MS) <= MinuteReach(c.caps.live)
  {
    SlidingWindowBound(clock, c, events, a, MINUTE_MS);
    FloorOf(InSpan(Run(Init(clock), c, events).log, a, a + MINUTE_MS), c.caps.live);
  }

  /**
    And some run does, for every ceiling, so "about one ceiling" is not a bound: a full ceiling at
    the last millisecond of a minute and what it leaves room for at the last millisecond of the
    next are all admitted. Up to a ceiling of 60000 that is two ceilings less one.
  */
  lemma SpanCanHoldAlmostTwoCeilings(c: Config) returns (events: seq<Event>)
    requires c.caps.Valid()
    ensures RunOk(Init(0), c, events)
    ensures InSpan(Run(Init(0), c, events).log, LAST_MS, LAST_MS + MINUTE_MS) == MinuteReach(c.caps.live)
    ensures MinuteReach(c.caps.live) == 2 * c.caps.live - 1 - (c.caps.live - 1) / MINUTE_MS
  {
    var n := c.caps.live;
    var k := n * LAST_MS / MINUTE_MS;
    MinuteReachIs(n);
    FirstBurst(c, n);
    var ts, us := Repeat(LAST_MS, n), Repeat(LAST_MS + MINUTE_MS, k);
    var w := Run(Init(0), c, LiveCalls(ts));
    BurstAt(w, c, LAST_MS + MINUTE_MS, k);
    RunAppend(Init(0), c, LiveCalls(ts), LiveCalls(us));
    events := LiveCalls(ts) + LiveCalls(us);
    SumOfTwoBursts(LAST_MS, LAST_MS + MINUTE_MS, n, k);
  }

  /** A full ceiling at the end of the first minute, and the room it leaves a minute later. */
  lemma {:induction false} FirstBurst(c: Config, n: nat)
    requires c.caps.Valid() && n == c.caps.live
    ensures var ts := Repeat(LAST_MS, n);
            && RunOk(Init(0), c, LiveCalls(ts))
            && var w := Run(Init(0), c, LiveCalls(ts));
            && Inv(w, c) && w.clock <= LAST_MS && w.log == Tickets(ts)
            && Estimate(w.st.buckets, LAST_MS + MINUTE_MS) + n * LAST_MS / MINUTE_MS * MINUTE_MS <= n * MINUTE_MS
  {
    var ts := Repeat(LAST_MS, n);
    InitInv(0, c);
    BurstAt(Init(0), c, LAST_MS, n);
    RunKeepsInv(Init(0), c, LiveCalls(ts));
    RunClock(Init(0), c, ts, LAST_MS);
    var w := Run(Init(0), c, LiveCalls(ts));
    assert w.log == Tickets(ts);
    AlmostDecayed(w, c, n);
    assert n * LAST_MS == n * MINUTE_MS - n;
  }

  lemma SumOfTwoBursts(t: int, u: int, n: nat, k: nat)
    requires t <= u
    ensures InSpan(Tickets(Repeat(t, n)) + Tickets(Repeat(u, k)), t, u) == n + k
  {
    SumConcat(Tickets(Repeat(t, n)), Tickets(Repeat(u, k)), Within(t, u));
    SumRepeated(t, n, Within(t, u));
    SumRepeated(u, k, Within(t, u));
  }

  lemma {:induction false} RunClock(w: World, c: Config, times: seq<int>, last: int)
    requires RunOk(w, c, LiveCalls(times)) && w.clock <= last
    requires forall i :: 0 <= i < |times| ==> times[i] <= last
    ensures Run(w, c, LiveCalls(times)).clock <= last
    decreases |times|
  {
    if |times| > 0 {
      assert LiveCalls(times)[1..] == LiveCalls(times[1..]);
      RunClock(Step(w, c, LiveCalls(times)[0]), c, times[1..], last);
    }
  }
}
