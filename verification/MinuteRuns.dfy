/**
  Whole runs of the minute limiter: any sequence of acquires, releases and header
  observations under a clock that never goes back, with a counter store that works.
  A run keeps a log of admitted calls; a released call never left the worker.
*/
module MinuteRuns {
  import opened Common
  import opened Sums
  import opened MinuteLimiter

  datatype Ticket = Ticket(at: int, released: bool)

  datatype World = World(st: LimiterState, log: seq<Ticket>, clock: int)

  datatype Event =
    | TryAcquire(at: int, p: Priority)
    | Release(at: int, ticket: nat)
    | Observe(at: int, remaining: Option<int>)

  datatype Config = Config(caps: Caps, headerReserve: int)

  function Init(clock: int): World {
    World(LimiterState(map[], None), [], clock)
  }

  /** A token is given back at most once, by the call that took it. */
  predicate EventOk(w: World, e: Event) {
    w.clock <= e.at && (e.Release? ==> e.ticket < |w.log| && !w.log[e.ticket].released)
  }

  /** What the limiter handed to the call that took this ticket. */
  function ResultOf(t: Ticket): AcquireResult {
    AcquireResult(true, Live, Minute(t.at), 0, 0, None, false, 0, None)
  }

  function Step(w: World, c: Config, e: Event): World
    requires EventOk(w, e)
  {
    match e
    case TryAcquire(at, p) =>
      var (st, r) := Acquire(w.st, c.caps, c.headerReserve, p, at, NoFault);
      World(st, if r.allowed then w.log + [Ticket(at, false)] else w.log, at)
    case Release(at, i) =>
      World(Released(w.st, ResultOf(w.log[i]), at), w.log[i := w.log[i].(released := true)], at)
    case Observe(at, remaining) =>
      World(Observed(w.st, remaining, at), w.log, at)
  }

  predicate RunOk(w: World, c: Config, events: seq<Event>)
    decreases |events|
  {
    |events| == 0 || (EventOk(w, events[0]) && RunOk(Step(w, c, events[0]), c, events[1..]))
  }

  function Run(w: World, c: Config, events: seq<Event>): World
    requires RunOk(w, c, events)
    decreases |events|
  {
    if |events| == 0 then w else Run(Step(w, c, events[0]), c, events[1..])
  }

  // ------------------------------------------------------ counting the log

  function UpTo(m: int, e: int): Ticket -> int {
    (t: Ticket) => if !t.released && Minute(t.at) == m && Elapsed(t.at) <= e then 1 else 0
  }

  /** Unreleased calls admitted in epoch minute `m`, at most `e` ms into it. */
  function InMinute(log: seq<Ticket>, m: int, e: int): int { Sum(log, UpTo(m, e)) }

  function Within(lo: int, hi: int): Ticket -> int {
    (t: Ticket) => if !t.released && lo <= t.at <= hi then 1 else 0
  }

  /** Unreleased calls admitted between `lo` and `hi`, both included. */
  function InSpan(log: seq<Ticket>, lo: int, hi: int): int { Sum(log, Within(lo, hi)) }

  const LAST_MS: int := MINUTE_MS - 1

  // -------------------------------------------------------------- invariant

  /** Every bucket that can still be read holds exactly its unreleased calls. */
  ghost predicate BucketsMatchLog(w: World) {
    forall m :: w.clock < (m + 2) * MINUTE_MS ==> ReadBucket(w.st.buckets, m, w.clock) == InMinute(w.log, m, LAST_MS)
  }

  ghost predicate LogInPast(w: World) {
    forall i :: 0 <= i < |w.log| ==> w.log[i].at <= w.clock
  }

  /** The test the last admitted call of a minute passed still bounds that minute. */
  ghost predicate WindowOk(log: seq<Ticket>, live: int) {
    forall m, e :: 0 <= e < MINUTE_MS && InMinute(log, m, e) > 0 ==>
      Weighted(InMinute(log, m - 1, LAST_MS), InMinute(log, m, e), e) <= live * MINUTE_MS
  }

  ghost predicate HeaderInPast(st: LimiterState, now: int) {
    st.remote.Some? ==> st.remote.value.epochMinute <= Minute(now)
  }

  ghost predicate Inv(w: World, c: Config) {
    && Tidy(w.st.buckets, w.clock)
    && HeaderInPast(w.st, w.clock)
    && BucketsMatchLog(w)
    && LogInPast(w)
    && WindowOk(w.log, c.caps.live)
  }

  lemma InMinuteNonNegative(log: seq<Ticket>, m: int, e: int)
    ensures 0 <= InMinute(log, m, e)
  {
    SumNonNegative(log, UpTo(m, e));
  }

  lemma InMinuteMonotone(log: seq<Ticket>, m: int, e: int, f: int)
    requires e <= f
    ensures InMinute(log, m, e) <= InMinute(log, m, f)
  {
    SumMonotone(log, UpTo(m, e), UpTo(m, f));
  }

  lemma NothingLater(w: World, m: int, e: int)
    requires LogInPast(w) && w.clock < m * MINUTE_MS
    ensures InMinute(w.log, m, e) == 0
  {
    SumZero(w.log, UpTo(m, e));
  }

  lemma EverythingSoFar(w: World, e: int, m: int)
    requires LogInPast(w) && w.clock <= m * MINUTE_MS + e && 0 <= e
    ensures InMinute(w.log, m, e) == InMinute(w.log, m, LAST_MS)
  {
    SumMonotone(w.log, UpTo(m, e), UpTo(m, LAST_MS));
    SumMonotone(w.log, UpTo(m, LAST_MS), UpTo(m, e));
  }

  /** Time passing on its own keeps the store's agreement with the log. */
  lemma ClockMoves(w: World, c: Config, t: int)
    requires Inv(w, c) && w.clock <= t
    ensures Inv(w.(clock := t), c)
  {
    forall m | t < (m + 2) * MINUTE_MS
      ensures ReadBucket(w.st.buckets, m, t) == InMinute(w.log, m, LAST_MS)
    {
      ReadStable(w.st.buckets, m, w.clock, t);
    }
  }

  lemma InMinuteAfterAdmit(log: seq<Ticket>, at: int, m: int, e: int)
    ensures InMinute(log + [Ticket(at, false)], m, e) == InMinute(log, m, e) + if m == Minute(at) && Elapsed(at) <= e then 1 else 0
  {
    SumAppend(log, Ticket(at, false), UpTo(m, e));
  }

  /** A call that passed its test bounds the rest of its minute. */
  lemma AdmitKeepsWindow(w: World, live: int)
    requires LogInPast(w) && WindowOk(w.log, live)
    requires var m, e := Minute(w.clock), Elapsed(w.clock);
             Weighted(InMinute(w.log, m - 1, LAST_MS), InMinute(w.log, m, LAST_MS) + 1, e) <= live * MINUTE_MS
    ensures WindowOk(w.log + [Ticket(w.clock, false)], live)
  {
    var m0, e0, log := Minute(w.clock), Elapsed(w.clock), w.log + [Ticket(w.clock, false)];
    forall m, e | 0 <= e < MINUTE_MS && InMinute(log, m, e) > 0
      ensures Weighted(InMinute(log, m - 1, LAST_MS), InMinute(log, m, e), e) <= live * MINUTE_MS
    {
      InMinuteAfterAdmit(w.log, w.clock, m, e);
      InMinuteAfterAdmit(w.log, w.clock, m - 1, LAST_MS);
      if m == m0 && e0 <= e {
        EverythingSoFar(w, e, m0);
        InMinuteNonNegative(w.log, m0 - 1, LAST_MS);
        WeightedFallsWithinMinute(InMinute(w.log, m0 - 1, LAST_MS), InMinute(log, m0, e), e0, e);
      } else if m == m0 + 1 {
        NothingLater(w, m, e);
      }
    }
  }

  lemma AdmitKeepsInv(w: World, c: Config, p: Priority)
    requires Inv(w, c) && c.caps.Valid()
    requires Acquire(w.st, c.caps, c.headerReserve, p, w.clock, NoFault).1.allowed
    ensures Inv(Step(w, c, TryAcquire(w.clock, p)), c)
  {
    var at := w.clock;
    var m0 := Minute(at);
    AcquireDecides(w.st, c.caps, c.headerReserve, p, at, at);
    forall m
      ensures InMinute(w.log + [Ticket(at, false)], m, LAST_MS) == InMinute(w.log, m, LAST_MS) + if m == m0 then 1 else 0
    {
      InMinuteAfterAdmit(w.log, at, m, LAST_MS);
    }
    assert ReadBucket(w.st.buckets, m0 - 1, at) == InMinute(w.log, m0 - 1, LAST_MS);
    assert ReadBucket(w.st.buckets, m0, at) == InMinute(w.log, m0, LAST_MS);
    AdmitKeepsWindow(w, c.caps.live);
  }

  lemma DenyKeepsInv(w: World, c: Config, p: Priority)
    requires Inv(w, c) && c.caps.Valid()
    requires !Acquire(w.st, c.caps, c.headerReserve, p, w.clock, NoFault).1.allowed
    ensures Inv(Step(w, c, TryAcquire(w.clock, p)), c)
  {
    if !(p == Background && HeaderExhausted(w.st, c.headerReserve, Minute(w.clock))) {
      AcquireDecides(w.st, c.caps, c.headerReserve, p, w.clock, w.clock);
    }
  }

  lemma InMinuteAfterRelease(log: seq<Ticket>, i: nat, m: int, e: int)
    requires i < |log| && !log[i].released
    ensures InMinute(log[i := log[i].(released := true)], m, e) ==
            InMinute(log, m, e) - if Minute(log[i].at) == m && Elapsed(log[i].at) <= e then 1 else 0
  {
    SumUpdate(log, i, log[i].(released := true), UpTo(m, e));
  }

  lemma ReleaseKeepsInv(w: World, c: Config, i: nat)
    requires Inv(w, c) && i < |w.log| && !w.log[i].released
    ensures Inv(Step(w, c, Release(w.clock, i)), c)
  {
    var at, k := w.clock, Minute(w.log[i].at);
    var w' := Step(w, c, Release(at, i));
    IncrementTidy(w.st.buckets, k, -1, at, at);
    forall m | at < (m + 2) * MINUTE_MS
      ensures ReadBucket(w'.st.buckets, m, at) == InMinute(w'.log, m, LAST_MS)
    {
      ReadIncremented(w.st.buckets, k, -1, at, m, at);
      InMinuteAfterRelease(w.log, i, m, LAST_MS);
      SumAtLeastMember(w.log, i, UpTo(k, LAST_MS));
    }
    forall m, e | 0 <= e < MINUTE_MS && InMinute(w'.log, m, e) > 0
      ensures Weighted(InMinute(w'.log, m - 1, LAST_MS), InMinute(w'.log, m, e), e) <= c.caps.live * MINUTE_MS
    {
      InMinuteAfterRelease(w.log, i, m, e);
      InMinuteAfterRelease(w.log, i, m - 1, LAST_MS);
      WeightedMonotone(InMinute(w'.log, m - 1, LAST_MS), InMinute(w.log, m - 1, LAST_MS),
                       InMinute(w'.log, m, e), InMinute(w.log, m, e), e);
    }
  }

  lemma WeightedMonotone(p: int, p': int, q: int, q': int, e: int)
    requires p <= p' && q <= q' && e <= MINUTE_MS
    ensures Weighted(p, q, e) <= Weighted(p', q', e)
  {
    assert 0 <= (p' - p) * (MINUTE_MS - e);
  }

  lemma StepKeepsInv(w: World, c: Config, e: Event)
    requires Inv(w, c) && c.caps.Valid() && EventOk(w, e)
    ensures Inv(Step(w, c, e), c)
  {
    var now := w.(clock := e.at);
    ClockMoves(w, c, e.at);
    assert Step(w, c, e) == Step(now, c, e);
    match e
    case TryAcquire(at, p) =>
      if Acquire(now.st, c.caps, c.headerReserve, p, at, NoFault).1.allowed {
        AdmitKeepsInv(now, c, p);
      } else {
        DenyKeepsInv(now, c, p);
      }
    case Release(at, i) => ReleaseKeepsInv(now, c, i);
    case Observe(at, remaining) =>
  }

  lemma {:induction false} RunKeepsInv(w: World, c: Config, events: seq<Event>)
    requires Inv(w, c) && c.caps.Valid() && RunOk(w, c, events)
    ensures Inv(Run(w, c, events), c)
    decreases |events|
  {
    if |events| > 0 {
      StepKeepsInv(w, c, events[0]);
      RunKeepsInv(Step(w, c, events[0]), c, events[1..]);
    }
  }

  lemma InitInv(clock: int, c: Config)
    ensures Inv(Init(clock), c)
  {}

  // ----------------------------------------------------------- main bounds

  /** No epoch minute ever holds more unreleased calls, over all classes, than the live ceiling. */
  lemma {:induction false} MinuteBound(clock: int, c: Config, events: seq<Event>, m: int)
    requires c.caps.Valid() && RunOk(Init(clock), c, events)
    ensures InMinute(Run(Init(clock), c, events).log, m, LAST_MS) <= c.caps.live
  {
    InitInv(clock, c);
    RunKeepsInv(Init(clock), c, events);
    MinuteBoundFromWindow(Run(Init(clock), c, events).log, c.caps.live, m);
  }

  lemma MinuteBoundFromWindow(log: seq<Ticket>, live: int, m: int)
    requires WindowOk(log, live) && 0 < live
    ensures InMinute(log, m, LAST_MS) <= live
  {
    InMinuteNonNegative(log, m - 1, LAST_MS);
    if InMinute(log, m, LAST_MS) > 0 {
      assert Weighted(InMinute(log, m - 1, LAST_MS), InMinute(log, m, LAST_MS), LAST_MS) <= live * MINUTE_MS;
    }
  }

  /** From the weighted test at `e` ms into a minute to a plain count over both minutes. */
  lemma TwoMinuteSum(p: int, q: int, e: int, live: int)
    requires 0 <= p <= live && 0 <= e <= MINUTE_MS
    requires q == 0 || Weighted(p, q, e) <= live * MINUTE_MS
    ensures (p + q) * MINUTE_MS <= live * (MINUTE_MS + e)
  {
    assert p * e <= live * e;
    if q == 0 {
      assert p * MINUTE_MS <= live * MINUTE_MS;
      assert 0 <= live * e;
    }
  }

  /** A span inside one minute. */
  lemma SpanInMinute(log: seq<Ticket>, live: int, a: int, b: int)
    requires WindowOk(log, live) && 0 < live && a <= b && Minute(a) == Minute(b)
    ensures InSpan(log, a, b) <= live
  {
    var m, e := Minute(b), Elapsed(b);
    MinuteBoundFromWindow(log, live, m);
    InMinuteMonotone(log, m, e, LAST_MS);
    SumMonotone(log, Within(a, b), UpTo(m, e));
  }

  /** A span over a minute boundary. */
  lemma SpanOverBoundary(log: seq<Ticket>, live: int, a: int, b: int)
    requires WindowOk(log, live) && 0 < live && a <= b && Minute(a) == Minute(b) - 1
    ensures InSpan(log, a, b) * MINUTE_MS <= live * (MINUTE_MS + Elapsed(b))
  {
    var m, e := Minute(b), Elapsed(b);
    MinuteBoundFromWindow(log, live, m - 1);
    InMinuteNonNegative(log, m - 1, LAST_MS);
    InMinuteNonNegative(log, m, e);
    SumSplit(log, Within(a, b), UpTo(m - 1, LAST_MS), UpTo(m, e));
    TwoMinuteSum(InMinute(log, m - 1, LAST_MS), InMinute(log, m, e), e, live);
    MulOrder(InSpan(log, a, b), InMinute(log, m - 1, LAST_MS) + InMinute(log, m, e), MINUTE_MS);
  }

  lemma SpanBound(log: seq<Ticket>, live: int, a: int, d: int)
    requires WindowOk(log, live) && 0 < live && 0 <= d <= MINUTE_MS
    ensures InSpan(log, a, a + d) * MINUTE_MS <= live * (MINUTE_MS + Min(d, LAST_MS))
  {
    var b := a + d;
    if Minute(a) == Minute(b) {
      SpanInMinute(log, live, a, b);
      MulOrder(InSpan(log, a, b), live, MINUTE_MS);
      MulLe(live, 0, Min(d, LAST_MS));
    } else {
      SpanOverBoundary(log, live, a, b);
      MulLe(live, Elapsed(b), Min(d, LAST_MS));
    }
  }

  /**
    The sliding window. Any span of d <= 60000 ms, over all classes, holds at most
    C_live * (1 + d / 60000) admitted calls that were not given back; 60 seconds hold no more than
    a millisecond less may.
  */
  lemma {:induction false} SlidingWindowBound(clock: int, c: Config, events: seq<Event>, a: int, d: int)
    requires c.caps.Valid() && RunOk(Init(clock), c, events)
    requires 0 <= d <= MINUTE_MS
    ensures InSpan(Run(Init(clock), c, events).log, a, a + d) * MINUTE_MS <= c.caps.live * (MINUTE_MS + Min(d, LAST_MS))
  {
    InitInv(clock, c);
    RunKeepsInv(Init(clock), c, events);
    SpanBound(Run(Init(clock), c, events).log, c.caps.live, a, d);
  }

  lemma MulLe(k: int, x: int, y: int)
    requires 0 <= k && x <= y
    ensures k * (MINUTE_MS + x) <= k * (MINUTE_MS + y)
  {
    assert 0 <= k * (y - x);
  }
}
