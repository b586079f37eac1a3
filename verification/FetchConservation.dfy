/**
  Call conservation through `fetchWorkload`: inside one UTC day, in every interleaving of its
  callers' store operations, with any of them throwing before or after it landed, the daily
  counter and the minute buckets hold exactly the calls that reached the provider, those that
  still may, and the increments that something thrown left behind; and the calls stay within the caps.
*/
module FetchConservation {
  import opened Common
  import opened Sums
  import opened Slips
  import opened MinuteLimiter
  import opened FetchPipeline
  import opened FetchCounters
  import opened FetchFlight
  import Quota

  /** One per call that reached the provider: fetched, failed, refused by the provider itself, or cut off after that. */
  function Attempts(): Caller -> int {
    (k: Caller) => if k.sent then 1 else 0
  }

  function BackgroundAttempts(): Caller -> int {
    (k: Caller) => if k.sent && k.request.priority == Background then 1 else 0
  }

  function AttemptsInMinute(m: int): Caller -> int {
    (k: Caller) => if k.sent && k.token.Held? && k.token.minute == m then 1 else 0
  }

  // ------------------------------------------------------------ the callers

  predicate HoldsNothing(k: Caller) { k.token == NoToken && k.reserved == None && !k.sent }

  /** A call that ended holds what it sent: a token and a slip, or nothing. */
  predicate EndOk(k: Caller, o: Outcome) {
    && (if k.sent then k.token != NoToken && k.reserved.Some? else HoldsNothing(k))
    && (o != Rejected ==> (k.sent <==> Attempted(o)))
  }

  /** What a caller holds is a function of where it is. */
  predicate WorkOk(k: Caller, w: Work) {
    match w
    case GivingBack(_, at, _, _) => k.token.Held? && k.token.minute == Minute(at) && k.reserved == None && !k.sent
    case Reserving => k.token != NoToken && k.reserved == None && !k.sent
    case Judging(_) => k.token != NoToken && k.reserved.Some? && !k.sent
    case Refusing(_) => k.token != NoToken && k.reserved.Some? && !k.sent
    case Requesting => k.token != NoToken && k.reserved.Some? && !k.sent
    case Releasing(o) => k.token != NoToken && !k.sent && (o == Denied || o == Skipped) && (k.reserved.Some? <==> o == Skipped)
    case Refunding => k.token == NoToken && k.reserved.Some? && !k.sent
    case Writing(_, _) => k.token != NoToken && k.reserved.Some? && k.sent
    case WritingLastGood(_) => k.token != NoToken && k.reserved.Some? && k.sent
    case Settling(o) => EndOk(k, o)
    case _ => HoldsNothing(k)
  }

  predicate HoldsOk(k: Caller) {
    match k.phase
    case Leading(w) => WorkOk(k, w)
    case Done(o) => EndOk(k, o)
    case _ => HoldsNothing(k)
  }

  /** A token is kept, and a request made, only with a total that passed its test. */
  predicate FitsOk(k: Caller, c: Config) {
    && (k.token.Held? && !(k.phase.Leading? && k.phase.work.GivingBack?) ==> k.token.slip.total <= c.caps.Of(k.request.priority))
    && (k.reserved.Some? && (k.sent || k.phase == Leading(Requesting)) ==>
          Quota.CapPassed(c.quota, Some(k.request.priority), k.reserved.value.total).None?)
  }

  /** Nothing is from the future, and a token not counted in time is past its readable minutes. */
  predicate TimesOk(k: Caller, now: int, day: int) {
    && (k.token.Held? ==> k.token.minute * MINUTE_MS <= now && (k.token.inTime || (k.token.minute + 2) * MINUTE_MS <= now))
    && (k.phase.Leading? ==>
          match k.phase.work
          case Reading(_, at) => at <= now
          case Counting(_, at, previous) => at <= now && 0 <= previous
          case GivingBack(_, at, previous, _) => at <= now && 0 <= previous
          case Judging(window) => window == day
          case Refusing(window) => window == day
          case _ => true)
  }

  predicate CallerOk(k: Caller, c: Config, now: int, day: int) {
    HoldsOk(k) && FitsOk(k, c) && TimesOk(k, now, day)
  }

  ghost predicate CallersOk(s: State, c: Config, day: int) {
    forall i :: 0 <= i < |s.callers| ==> CallerOk(s.callers[i], c, s.now, day)
  }

  ghost predicate CountersOk(s: State, day: int) {
    && Quota.WindowFor(s.now) == day
    && MinutesOk(s.limiter.buckets, s.now, s.callers, s.strandedMinutes, s.orders)
    && DayOk(s.counts, day, s.callers, s.strandedDays, s.orders)
  }

  ghost predicate Inv(s: State, c: Config, day: int) { CallersOk(s, c, day) && CountersOk(s, day) }

  // ------------------------------------------------ one caller, one counter

  /** Only caller `i` differs. */
  predicate Only(s: State, t: State, i: nat) {
    i < |s.callers| == |t.callers| && t == s.(callers := s.callers[i := t.callers[i]])
  }

  /** Nothing was counted, and what the caller had counted it still holds. */
  lemma KeptCounters(s: State, t: State, i: nat, day: int)
    requires CountersOk(s, day) && i < |s.callers| == |t.callers| && t.callers == s.callers[i := t.callers[i]]
    requires t.now == s.now && t.limiter.buckets == s.limiter.buckets && t.counts == s.counts
    requires t.orders == s.orders && t.strandedMinutes == s.strandedMinutes && t.strandedDays == s.strandedDays
    requires SameToken(s.callers[i], t.callers[i]) && t.callers[i].reserved == s.callers[i].reserved
    ensures CountersOk(t, day)
  {
    MinuteKept(s.limiter.buckets, s.now, s.callers, s.strandedMinutes, s.orders, i, t.callers[i], s.orders);
    DayKept(s.counts, day, s.callers, s.strandedDays, s.orders, i, t.callers[i], s.orders);
  }

  lemma OthersStayOk(s: State, t: State, i: nat, c: Config, day: int)
    requires CallersOk(s, c, day) && i < |s.callers| == |t.callers| && t.callers == s.callers[i := t.callers[i]] && t.now == s.now
    requires CallerOk(t.callers[i], c, t.now, day)
    ensures CallersOk(t, c, day)
  {}

  lemma KeptInv(s: State, t: State, i: nat, c: Config, day: int)
    requires Inv(s, c, day) && Only(s, t, i) && CallerOk(t.callers[i], c, t.now, day)
    requires SameToken(s.callers[i], t.callers[i]) && t.callers[i].reserved == s.callers[i].reserved
    ensures Inv(t, c, day)
  {
    KeptCounters(s, t, i, day);
    OthersStayOk(s, t, i, c, day);
  }

  /** An answer of the limiter leaves the caller with the token it names, or none. */
  lemma AnsweredShape(s: State, i: nat, retry: bool, r: AcquireResult, token: Token)
    requires i < |s.callers|
    ensures var t := WithAnswer(s, i, retry, r, token); var k, k' := s.callers[i], t.callers[i];
            && Only(s, t, i) && k'.phase.Leading?
            && k' == k.(phase := k'.phase, token := if r.allowed then token else NoToken)
            && (k'.phase.work == Reserving || (!r.allowed && (k'.phase.work.Sleeping? || k'.phase.work in {Settling(Throttled), Settling(StaleServed)})))
            && (r.allowed ==> k'.phase.work == Reserving)
  {}

  /** A refusal, or a token the store did not count, for a caller that holds none. */
  lemma AnsweredOk(k: Caller, k': Caller, c: Config, now: int, day: int)
    requires k.reserved == None && !k.sent && k'.phase.Leading? && k' == k.(phase := k'.phase, token := k'.token)
    requires (k'.token == FailOpen && k'.phase.work == Reserving)
          || (k'.token == NoToken && (k'.phase.work.Sleeping? || k'.phase.work in {Settling(Throttled), Settling(StaleServed)}))
    ensures CallerOk(k', c, now, day)
  {}

  // ------------------------------------------------------- the minute steps

  lemma PolicyShape(s: State, c: Config, i: nat, retry: bool, at: int, day: int)
    requires i < |s.callers| && s.callers[i].reserved == None && !s.callers[i].sent
    ensures var t := AnsweredByPolicy(s, c, i, retry, at);
            && Only(s, t, i) && !t.callers[i].token.Held? && t.callers[i].reserved == None
            && CallerOk(t.callers[i], c, t.now, day)
  {
    var p := s.callers[i].request.priority;
    AnsweredShape(s, i, retry, FailPolicy(p, at, c.caps.Of(p)), FailOpen);
    AnsweredOk(s.callers[i], AnsweredByPolicy(s, c, i, retry, at).callers[i], c, s.now, day);
  }

  lemma AcquireBegunKeepsInv(s: State, c: Config, i: nat, day: int)
    requires Inv(s, c, day) && Enabled(s, BeginAcquire(i))
    ensures Inv(AcquireBegun(s, c, i), c, day)
  {
    var t, p, retry := AcquireBegun(s, c, i), s.callers[i].request.priority, s.callers[i].phase.work.retry;
    assert CallerOk(s.callers[i], c, s.now, day);
    if p == Background && HeaderExhausted(s.limiter, c.headerReserve, Minute(s.now)) {
      AnsweredShape(s, i, retry, HeaderDenied(p, s.now, c.caps.Of(p)), NoToken);
      AnsweredOk(s.callers[i], t.callers[i], c, s.now, day);
    }
    KeptInv(s, t, i, c, day);
  }

  lemma MinuteReadKeepsInv(s: State, c: Config, i: nat, throws: bool, day: int)
    requires Inv(s, c, day) && Enabled(s, ReadMinute(i, throws))
    ensures Inv(MinuteRead(s, c, i, throws), c, day)
  {
    assert CallerOk(s.callers[i], c, s.now, day);
    PolicyShape(s, c, i, s.callers[i].phase.work.retry, s.callers[i].phase.work.at, day);
    KeptInv(s, MinuteRead(s, c, i, throws), i, c, day);
  }

  lemma WeightedAtLeastCurrent(previous: int, current: int, e: int)
    requires 0 <= previous && e <= MINUTE_MS
    ensures current * MINUTE_MS <= Weighted(previous, current, e)
  {
    var left := MINUTE_MS - e;
    assert 0 <= previous * left;
  }

  lemma NotOverFits(previous: int, total: int, at: int, ceiling: int)
    requires 0 <= previous && !OverCeiling(previous, total, at, ceiling)
    ensures total <= ceiling
  {
    WeightedAtLeastCurrent(previous, total, Elapsed(at));
  }

  /** The counted caller waits to give back, or goes on with a total within its ceiling. */
  lemma MinuteJudgedShape(s: State, c: Config, i: nat, w: Work, total: int, token: Token, day: int)
    requires i < |s.callers| && w.Counting? && s.callers[i].reserved == None && !s.callers[i].sent
    requires token.Held? && token.slip.total == total && token.minute == Minute(w.at)
    requires w.at <= s.now && 0 <= w.previous && (token.inTime || (token.minute + 2) * MINUTE_MS <= s.now)
    ensures var t := MinuteJudged(s, c, i, w, total, token);
            Only(s, t, i) && t.callers[i].token == token && t.callers[i].reserved == None && CallerOk(t.callers[i], c, t.now, day)
  {
    var p := s.callers[i].request.priority;
    if !OverCeiling(w.previous, total, w.at, c.caps.Of(p)) {
      NotOverFits(w.previous, total, w.at, c.caps.Of(p));
      AnsweredShape(s, i, w.retry, Admitted(p, w.at, c.caps.Of(p), w.previous, total), token);
    }
  }

  lemma TakenKeepsInv(s: State, t: State, c: Config, i: nat, m: int, day: int)
    requires Inv(s, c, day) && i < |s.callers| == |t.callers| && t.callers == s.callers[i := t.callers[i]]
    requires t.now == s.now && t.limiter.buckets == Incremented(s.limiter.buckets, m, 1, s.now, BUCKET_TTL_SECONDS) && t.counts == s.counts
    requires t.orders == s.orders + 1 && t.strandedMinutes == s.strandedMinutes && t.strandedDays == s.strandedDays
    requires !s.callers[i].token.Held? && m * MINUTE_MS <= s.now
    requires t.callers[i].token == Held(m, Slip(s.orders, ReadBucket(t.limiter.buckets, m, s.now)), s.now < (m + 2) * MINUTE_MS)
    requires t.callers[i].reserved == s.callers[i].reserved && CallerOk(t.callers[i], c, t.now, day)
    ensures Inv(t, c, day)
  {
    MinuteTaken(s.limiter.buckets, s.now, s.callers, s.strandedMinutes, s.orders, i, t.callers[i], m);
    DayKept(s.counts, day, s.callers, s.strandedDays, s.orders, i, t.callers[i], s.orders + 1);
    OthersStayOk(s, t, i, c, day);
  }

  lemma CountedKeepsInv(s: State, c: Config, i: nat, day: int)
    requires Inv(s, c, day) && Enabled(s, CountMinute(i, Works))
    ensures Inv(MinuteCounted(s, c, i, Works), c, day)
  {
    assert CallerOk(s.callers[i], c, s.now, day);
    var w := s.callers[i].phase.work;
    var m := Minute(w.at);
    var counted := BucketAfter(s, m, 1, Works).(orders := s.orders + 1);
    var total := ReadBucket(counted.limiter.buckets, m, s.now);
    var token := Held(m, Slip(s.orders, total), s.now < (m + 2) * MINUTE_MS);
    MinuteJudgedShape(counted, c, i, w, total, token, day);
    TakenKeepsInv(s, MinuteJudged(counted, c, i, w, total, token), c, i, m, day);
  }

  lemma CountThrowsKeepsInv(s: State, c: Config, i: nat, landed: bool, day: int)
    requires Inv(s, c, day) && Enabled(s, CountMinute(i, Throws(landed)))
    ensures Inv(MinuteCounted(s, c, i, Throws(landed)), c, day)
  {
    assert CallerOk(s.callers[i], c, s.now, day);
    var w, m := s.callers[i].phase.work, Minute(s.callers[i].phase.work.at);
    var after := BucketAfter(s, m, 1, Throws(landed));
    var stranded := if landed then StrandMinute(after, m) else after;
    if landed {
      MinuteStranded(s.limiter.buckets, s.now, s.callers, s.strandedMinutes, s.orders, m);
    }
    assert Inv(stranded, c, day);
    PolicyShape(stranded, c, i, w.retry, w.at, day);
    KeptInv(stranded, MinuteCounted(s, c, i, Throws(landed)), i, c, day);
  }

  /** A token taken back, or given up: its bucket falls, or it is stranded there. */
  lemma TokenGoneKeepsInv(s: State, t: State, c: Config, i: nat, fault: Fault, day: int)
    requires Inv(s, c, day) && i < |s.callers| && s.callers[i].token.Held?
    requires var m := s.callers[i].token.minute;
             Only(if fault == Throws(false) then StrandMinute(s, m) else BucketAfter(s, m, -1, fault), t, i)
    requires !t.callers[i].token.Held? && t.callers[i].reserved == s.callers[i].reserved && CallerOk(t.callers[i], c, t.now, day)
    ensures Inv(t, c, day)
  {
    assert CallerOk(s.callers[i], c, s.now, day);
    var b := s.limiter.buckets;
    if fault == Throws(false) {
      MinuteLeft(b, s.now, s.callers, s.strandedMinutes, s.orders, i, t.callers[i]);
    } else {
      MinuteReturned(b, s.now, s.callers, s.strandedMinutes, s.orders, i, t.callers[i]);
    }
    DayKept(s.counts, day, s.callers, s.strandedDays, s.orders, i, t.callers[i], s.orders);
    OthersStayOk(s, t, i, c, day);
  }

  lemma GivenBackKeepsInv(s: State, c: Config, i: nat, fault: Fault, day: int)
    requires Inv(s, c, day) && Enabled(s, GiveBackMinute(i, fault))
    ensures Inv(MinuteGivenBack(s, c, i, fault), c, day)
  {
    assert CallerOk(s.callers[i], c, s.now, day);
    var p, w, t := s.callers[i].request.priority, s.callers[i].phase.work, MinuteGivenBack(s, c, i, fault);
    var m := Minute(w.at);
    var after := if fault == Throws(false) then StrandMinute(s, m) else BucketAfter(s, m, -1, fault);
    if fault == Works {
      AnsweredShape(after, i, w.retry, CapDenied(p, w.at, c.caps.Of(p), w.previous, w.total), NoToken);
      AnsweredOk(s.callers[i], t.callers[i], c, s.now, day);
    } else {
      PolicyShape(after, c, i, w.retry, w.at, day);
    }
    TokenGoneKeepsInv(s, t, c, i, fault, day);
  }

  lemma ReleaseKeepsInv(s: State, c: Config, i: nat, fault: Fault, day: int)
    requires Inv(s, c, day) && Enabled(s, ReleaseToken(i, fault))
    ensures Inv(TokenReleased(s, i, fault), c, day)
  {
    assert CallerOk(s.callers[i], c, s.now, day);
    var t := TokenReleased(s, i, fault);
    assert CallerOk(t.callers[i], c, t.now, day);
    if s.callers[i].token.Held? {
      TokenGoneKeepsInv(s, t, c, i, fault, day);
    } else {
      KeptInv(s, t, i, c, day);
    }
  }

  // ---------------------------------------------------------- the day steps

  /** The token of a call that is cut off is stranded. */
  lemma ThrownMinutes(s: State, i: nat, k: Caller, day: int)
    requires CountersOk(s, day) && i < |s.callers| && k.token == NoToken
    ensures MinutesOk(s.limiter.buckets, s.now, s.callers[i := k],
                      s.strandedMinutes + if s.callers[i].token.Held? then [s.callers[i].token.minute] else [], s.orders)
  {
    if s.callers[i].token.Held? {
      MinuteLeft(s.limiter.buckets, s.now, s.callers, s.strandedMinutes, s.orders, i, k);
    } else {
      MinuteKept(s.limiter.buckets, s.now, s.callers, s.strandedMinutes, s.orders, i, k, s.orders);
      assert s.strandedMinutes + [] == s.strandedMinutes;
    }
  }

  lemma ThrownCounters(s: State, i: nat, day: int)
    requires CountersOk(s, day) && i < |s.callers|
    ensures CountersOk(Thrown(s, i), day)
  {
    var k, t := s.callers[i], Thrown(s, i);
    if k.sent {
      KeptCounters(s, t, i, day);
    } else {
      ThrownMinutes(s, i, t.callers[i], day);
      if k.reserved.Some? {
        DayLeft(s.counts, day, s.callers, s.strandedDays, s.orders, i, t.callers[i]);
      } else {
        DayKept(s.counts, day, s.callers, s.strandedDays, s.orders, i, t.callers[i], s.orders);
      }
    }
  }

  /** What the callers hold while one of them is cut off. */
  ghost predicate OthersOk(s: State, i: nat, c: Config, day: int) {
    forall j :: 0 <= j < |s.callers| && j != i ==> CallerOk(s.callers[j], c, s.now, day)
  }

  lemma ThrownKeepsInv(s: State, i: nat, c: Config, day: int)
    requires CountersOk(s, day) && OthersOk(s, i, c, day) && i < |s.callers|
    requires s.callers[i].sent ==> CallerOk(s.callers[i], c, s.now, day) && s.callers[i].phase.Leading?
    ensures Inv(Thrown(s, i), c, day)
  {
    var t := Thrown(s, i);
    ThrownCounters(s, i, day);
    assert CallerOk(t.callers[i], c, t.now, day);
    assert forall j :: 0 <= j < |t.callers| && j != i ==> t.callers[j] == s.callers[j];
  }

  lemma DayCountedKeepsInv(s: State, c: Config, i: nat, fault: Fault, day: int)
    requires Inv(s, c, day) && Enabled(s, CountDay(i, fault))
    ensures Inv(DayCounted(s, i, fault), c, day)
  {
    assert CallerOk(s.callers[i], c, s.now, day);
    var t := DayCounted(s, i, fault);
    if fault == Works {
      DayTaken(s.counts, day, s.callers, s.strandedDays, s.orders, i, t.callers[i]);
      MinuteKept(s.limiter.buckets, s.now, s.callers, s.strandedMinutes, s.orders, i, t.callers[i], s.orders + 1);
      OthersStayOk(s, t, i, c, day);
    } else {
      var after := DayAfter(s, day, 1, fault);
      var stranded := if fault.landed then after.(strandedDays := s.strandedDays + 1) else after;
      if fault.landed {
        DayStranded(s.counts, day, s.callers, s.strandedDays, s.orders);
      }
      ThrownKeepsInv(stranded, i, c, day);
    }
  }

  /** A count taken back: by its caller, who goes on to `next`, or by an operation that threw after it landed. */
  lemma DayGivenBackKeepsInv(s: State, c: Config, i: nat, fault: Fault, next: Work, day: int)
    requires Inv(s, c, day) && i < |s.callers| && s.callers[i].reserved.Some? && !s.callers[i].sent
    requires CallerOk(s.callers[i].(reserved := None, phase := Leading(next)), c, s.now, day)
    ensures Inv(DayGivenBack(DayAfter(s, day, -1, fault), i, fault, next), c, day)
  {
    var after := DayAfter(s, day, -1, fault);
    var t := DayGivenBack(after, i, fault, next);
    if fault == Throws(false) {
      ThrownKeepsInv(after, i, c, day);
    } else if fault == Works {
      DayReturned(s.counts, day, s.callers, s.strandedDays, s.orders, i, t.callers[i]);
      MinuteKept(s.limiter.buckets, s.now, s.callers, s.strandedMinutes, s.orders, i, t.callers[i], s.orders);
      OthersStayOk(s, t, i, c, day);
    } else {
      var k := s.callers[i].(reserved := None);
      DayReturned(s.counts, day, s.callers, s.strandedDays, s.orders, i, k);
      MinuteKept(s.limiter.buckets, s.now, s.callers, s.strandedMinutes, s.orders, i, k, s.orders);
      ThrownKeepsInv(Put(after, i, k), i, c, day);
    }
  }

  lemma JudgedKeepsInv(s: State, c: Config, i: nat, day: int)
    requires Inv(s, c, day) && Enabled(s, JudgeDay(i))
    ensures Inv(Next(s, c, JudgeDay(i)), c, day)
  {
    assert CallerOk(s.callers[i], c, s.now, day);
    KeptInv(s, Next(s, c, JudgeDay(i)), i, c, day);
  }

  // ---------------------------------------------------------- the other steps

  /** Steps that count nothing and leave the caller what it holds. */
  predicate Plain(step: Step) {
    Reads(step) || Shares(step) || step.WriteCache? || step.WriteLastGood?
  }

  predicate Reads(step: Step) { step.ReadCache? || step.ReadAgain? || step.Wake? || step.Resolve? }

  predicate Shares(step: Step) { step.Enter? || step.Respond? || step.Settle? }

  /** Only caller `i` moves, with its token and reservation; nothing counted changes. */
  predicate PlainMove(s: State, t: State, i: nat) {
    && i < |s.callers| == |t.callers| && t.callers == s.callers[i := t.callers[i]]
    && t.now == s.now && t.limiter == s.limiter && t.counts == s.counts
    && t.orders == s.orders && t.strandedMinutes == s.strandedMinutes && t.strandedDays == s.strandedDays
    && t.callers[i].token == s.callers[i].token && t.callers[i].reserved == s.callers[i].reserved
  }

  lemma ReadingIsPlain(s: State, c: Config, step: Step, day: int)
    requires Reads(step)
    requires Enabled(s, step) && CallerOk(s.callers[step.caller], c, s.now, day)
    ensures var t := Next(s, c, step); PlainMove(s, t, step.caller) && CallerOk(t.callers[step.caller], c, t.now, day)
  {}

  lemma WritingIsPlain(s: State, c: Config, step: Step, day: int)
    requires step.WriteCache? || step.WriteLastGood?
    requires Enabled(s, step) && CallerOk(s.callers[step.caller], c, s.now, day)
    ensures var t := Next(s, c, step); PlainMove(s, t, step.caller) && CallerOk(t.callers[step.caller], c, t.now, day)
  {}

  lemma SharingIsPlain(s: State, c: Config, step: Step, day: int)
    requires Shares(step)
    requires Enabled(s, step) && CallerOk(s.callers[step.caller], c, s.now, day)
    ensures var t := Next(s, c, step); PlainMove(s, t, step.caller) && CallerOk(t.callers[step.caller], c, t.now, day)
  {}

  lemma PlainKeepsInv(s: State, c: Config, day: int, step: Step)
    requires Inv(s, c, day) && Enabled(s, step) && Plain(step)
    ensures Inv(Next(s, c, step), c, day)
  {
    var i := step.caller;
    assert CallerOk(s.callers[i], c, s.now, day);
    if Reads(step) {
      ReadingIsPlain(s, c, step, day);
    } else if Shares(step) {
      SharingIsPlain(s, c, step, day);
    } else {
      WritingIsPlain(s, c, step, day);
    }
    KeptCounters(s, Next(s, c, step), i, day);
    OthersStayOk(s, Next(s, c, step), i, c, day);
  }

  lemma NewcomerOk(r: Request, c: Config, now: int, day: int)
    ensures CallerOk(Newcomer(r), c, now, day)
  {}

  lemma ArriveKeepsCallers(s: State, c: Config, day: int, r: Request)
    requires CallersOk(s, c, day)
    ensures CallersOk(s.(callers := s.callers + [Newcomer(r)]), c, day)
  {
    NewcomerOk(r, c, s.now, day);
    var callers := s.callers + [Newcomer(r)];
    forall i | 0 <= i < |callers|
      ensures CallerOk(callers[i], c, s.now, day)
    {
      assert i < |s.callers| ==> callers[i] == s.callers[i];
    }
  }

  lemma ArriveKeepsInv(s: State, c: Config, day: int, r: Request)
    requires Inv(s, c, day)
    ensures Inv(Next(s, c, Arrive(r)), c, day)
  {
    assert Next(s, c, Arrive(r)) == s.(callers := s.callers + [Newcomer(r)]);
    ArriveKeepsCallers(s, c, day, r);
    MinutesJoined(s.limiter.buckets, s.now, s.callers, s.strandedMinutes, s.orders, r);
    DayJoined(s.counts, day, s.callers, s.strandedDays, s.orders, r);
  }

  lemma TickKeepsInv(s: State, c: Config, day: int, ms: nat)
    requires Inv(s, c, day) && Quota.WindowFor(s.now + ms) == day
    ensures Inv(Next(s, c, Tick(ms)), c, day)
  {
    MinutesLater(s.limiter.buckets, s.now, s.now + ms, s.callers, s.strandedMinutes, s.orders);
    assert forall i :: 0 <= i < |s.callers| ==> CallerOk(s.callers[i], c, s.now, day);
  }

  lemma MinuteStepKeepsInv(s: State, c: Config, day: int, step: Step)
    requires step.BeginAcquire? || step.ReadMinute? || step.CountMinute? || step.GiveBackMinute? || step.ReleaseToken?
    requires Inv(s, c, day) && Enabled(s, step)
    ensures Inv(Next(s, c, step), c, day)
  {
    match step
    case BeginAcquire(i) => AcquireBegunKeepsInv(s, c, i, day);
    case ReadMinute(i, throws) => MinuteReadKeepsInv(s, c, i, throws, day);
    case CountMinute(i, fault) =>
      if fault == Works {
        CountedKeepsInv(s, c, i, day);
      } else {
        CountThrowsKeepsInv(s, c, i, fault.landed, day);
      }
    case GiveBackMinute(i, fault) => GivenBackKeepsInv(s, c, i, fault, day);
    case ReleaseToken(i, fault) => ReleaseKeepsInv(s, c, i, fault, day);
  }

  lemma RefusedKeepsInv(s: State, c: Config, i: nat, fault: Fault, day: int)
    requires Inv(s, c, day) && Enabled(s, GiveBackDay(i, fault))
    ensures Inv(Next(s, c, GiveBackDay(i, fault)), c, day)
  {
    assert CallerOk(s.callers[i], c, s.now, day);
    DayGivenBackKeepsInv(s, c, i, fault, Releasing(Denied), day);
  }

  lemma RefundKeepsInv(s: State, c: Config, i: nat, fault: Fault, day: int)
    requires Inv(s, c, day) && Enabled(s, RefundQuota(i, fault))
    ensures Inv(Next(s, c, RefundQuota(i, fault)), c, day)
  {
    assert CallerOk(s.callers[i], c, s.now, day);
    DayGivenBackKeepsInv(s, c, i, fault, Settling(Skipped), day);
  }

  lemma DayStepKeepsInv(s: State, c: Config, day: int, step: Step)
    requires step.CountDay? || step.JudgeDay? || step.GiveBackDay? || step.RefundQuota?
    requires Inv(s, c, day) && Enabled(s, step)
    ensures Inv(Next(s, c, step), c, day)
  {
    match step
    case CountDay(i, fault) => DayCountedKeepsInv(s, c, i, fault, day);
    case JudgeDay(i) => JudgedKeepsInv(s, c, i, day);
    case GiveBackDay(i, fault) => RefusedKeepsInv(s, c, i, fault, day);
    case RefundQuota(i, fault) => RefundKeepsInv(s, c, i, fault, day);
  }

  lemma StepKeepsInv(s: State, c: Config, day: int, step: Step)
    requires Inv(s, c, day) && Enabled(s, step) && Quota.WindowFor(Next(s, c, step).now) == day
    ensures Inv(Next(s, c, step), c, day)
  {
    if Plain(step) {
      PlainKeepsInv(s, c, day, step);
    } else if step.Tick? {
      TickKeepsInv(s, c, day, step.ms);
    } else if step.Arrive? {
      ArriveKeepsInv(s, c, day, step.request);
    } else if step.Reject? {
      assert CallerOk(s.callers[step.caller], c, s.now, day);
      ThrownKeepsInv(s, step.caller, c, day);
    } else if step.CountDay? || step.JudgeDay? || step.GiveBackDay? || step.RefundQuota? {
      DayStepKeepsInv(s, c, day, step);
    } else if !step.ObserveHeaders? {
      MinuteStepKeepsInv(s, c, day, step);
    }
  }

  lemma ClockNeverGoesBack(s: State, c: Config, step: Step)
    requires Enabled(s, step)
    ensures s.now <= Next(s, c, step).now
  {
    if Internal(step) {
      InternalMoves(s, c, step);
    } else {
      OutsideQuiet(s, c, step);
    }
  }

  lemma {:induction false} RunClock(s: State, c: Config, steps: seq<Step>)
    requires RunOk(s, c, steps)
    ensures s.now <= Run(s, c, steps).now
    decreases |steps|
  {
    if |steps| > 0 {
      ClockNeverGoesBack(s, c, steps[0]);
      RunClock(Next(s, c, steps[0]), c, steps[1..]);
    }
  }

  lemma DayBetween(a: int, b: int, d: int)
    requires a <= b <= d && Quota.WindowFor(a) == Quota.WindowFor(d)
    ensures Quota.WindowFor(b) == Quota.WindowFor(a)
  {}

  /** A run that ends on the day it began is on that day after its first step. */
  lemma {:induction false} StillThatDay(s: State, c: Config, day: int, steps: seq<Step>)
    requires RunOk(s, c, steps) && 0 < |steps| && Quota.WindowFor(s.now) == day == Quota.WindowFor(Run(s, c, steps).now)
    ensures Quota.WindowFor(Next(s, c, steps[0]).now) == day
  {
    var t := Next(s, c, steps[0]);
    ClockNeverGoesBack(s, c, steps[0]);
    RunClock(t, c, steps[1..]);
    DayBetween(s.now, t.now, Run(t, c, steps[1..]).now);
  }

  lemma {:induction false} RunKeepsInv(s: State, c: Config, day: int, steps: seq<Step>)
    requires Inv(s, c, day) && RunOk(s, c, steps)
    requires Quota.WindowFor(Run(s, c, steps).now) == day
    ensures Inv(Run(s, c, steps), c, day)
    decreases |steps|
  {
    if |steps| > 0 {
      StillThatDay(s, c, day, steps);
      StepKeepsInv(s, c, day, steps[0]);
      RunKeepsInv(Next(s, c, steps[0]), c, day, steps[1..]);
    }
  }

  lemma Reached(now: int, c: Config, steps: seq<Step>) returns (s: State)
    requires RunOk(Init(now), c, steps) && Quota.WindowFor(Run(Init(now), c, steps).now) == Quota.WindowFor(now)
    ensures s == Run(Init(now), c, steps) && Inv(s, c, Quota.WindowFor(now))
  {
    assert Inv(Init(now), c, Quota.WindowFor(now));
    RunKeepsInv(Init(now), c, Quota.WindowFor(now), steps);
    s := Run(Init(now), c, steps);
  }

  // ------------------------------------------------- what gets stranded

  /** Cut off now, caller `i` leaves a token of minute `m` to nobody. */
  predicate Forsakes(s: State, i: nat, m: int)
    requires i < |s.callers|
  {
    !s.callers[i].sent && s.callers[i].token.Held? && s.callers[i].token.minute == m
  }

  /**
    The step leaves a reservation in the day's counter for nobody: an increment that landed and
    threw, a give-back or refund that threw without landing, or an exception in a call that had
    reserved and not reached the provider.
  */
  predicate StrandsDay(s: State, step: Step)
    requires Enabled(s, step)
  {
    match step
    case CountDay(_, fault) => fault == Throws(true)
    case GiveBackDay(_, fault) => fault == Throws(false)
    case RefundQuota(_, fault) => fault == Throws(false)
    case Reject(i) => s.callers[i].reserved.Some? && !s.callers[i].sent
    case _ => false
  }

  /**
    The step leaves a token in minute `m`'s bucket for nobody: an increment that landed and threw,
    a give-back that threw without landing, or an exception in a call that held a token and had not
    reached the provider.
  */
  predicate StrandsMinute(s: State, step: Step, m: int)
    requires Enabled(s, step)
  {
    match step
    case CountMinute(i, fault) => fault == Throws(true) && Minute(s.callers[i].phase.work.at) == m
    case GiveBackMinute(i, fault) => fault == Throws(false) && Minute(s.callers[i].phase.work.at) == m
    case ReleaseToken(i, fault) => fault == Throws(false) && s.callers[i].token.Held? && s.callers[i].token.minute == m
    case CountDay(i, fault) => fault.Throws? && Forsakes(s, i, m)
    case GiveBackDay(i, fault) => fault.Throws? && Forsakes(s, i, m)
    case RefundQuota(i, fault) => fault.Throws? && Forsakes(s, i, m)
    case Reject(i) => Forsakes(s, i, m)
    case _ => false
  }

  function DaysStranded(s: State, c: Config, steps: seq<Step>): nat
    requires RunOk(s, c, steps)
    decreases |steps|
  {
    if |steps| == 0 then 0
    else (if StrandsDay(s, steps[0]) then 1 else 0) + DaysStranded(Next(s, c, steps[0]), c, steps[1..])
  }

  function MinutesStranded(s: State, c: Config, steps: seq<Step>, m: int): nat
    requires RunOk(s, c, steps)
    decreases |steps|
  {
    if |steps| == 0 then 0
    else (if StrandsMinute(s, steps[0], m) then 1 else 0) + MinutesStranded(Next(s, c, steps[0]), c, steps[1..], m)
  }

  /** How many more increments of minute `m` and of the day are stranded in `t`. */
  ghost predicate Strands(s: State, t: State, m: int, minute: nat, day: nat) {
    && Sum(t.strandedMinutes, IsMinute(m)) == Sum(s.strandedMinutes, IsMinute(m)) + minute
    && t.strandedDays == s.strandedDays + day
  }

  lemma MinuteStrands(s: State, n: int, m: int)
    ensures Strands(s, StrandMinute(s, n), m, if n == m then 1 else 0, 0)
  {
    SumAppend(s.strandedMinutes, n, IsMinute(m));
  }

  lemma ThrownStrands(s: State, i: nat, m: int)
    requires i < |s.callers|
    ensures Strands(s, Thrown(s, i), m, if Forsakes(s, i, m) then 1 else 0, if s.callers[i].reserved.Some? && !s.callers[i].sent then 1 else 0)
  {
    if s.callers[i].token.Held? {
      SumAppend(s.strandedMinutes, s.callers[i].token.minute, IsMinute(m));
    }
    assert s.strandedMinutes + [] == s.strandedMinutes;
  }

  lemma CountMinuteStrands(s: State, c: Config, i: nat, fault: Fault, m: int)
    requires Enabled(s, CountMinute(i, fault))
    ensures Strands(s, MinuteCounted(s, c, i, fault), m, if StrandsMinute(s, CountMinute(i, fault), m) then 1 else 0, 0)
  {
    var w, n, p := s.callers[i].phase.work, Minute(s.callers[i].phase.work.at), s.callers[i].request.priority;
    var after := BucketAfter(s, n, 1, fault);
    match fault
    case Throws(landed) =>
      var stranded := if landed then StrandMinute(after, n) else after;
      MinuteStrands(after, n, m);
      AnsweredShape(stranded, i, w.retry, FailPolicy(p, w.at, c.caps.Of(p)), FailOpen);
    case Works =>
  }

  lemma GiveBackMinuteStrands(s: State, c: Config, i: nat, fault: Fault, m: int)
    requires Enabled(s, GiveBackMinute(i, fault))
    ensures Strands(s, MinuteGivenBack(s, c, i, fault), m, if StrandsMinute(s, GiveBackMinute(i, fault), m) then 1 else 0, 0)
  {
    var w, n, p := s.callers[i].phase.work, Minute(s.callers[i].phase.work.at), s.callers[i].request.priority;
    var after := BucketAfter(s, n, -1, fault);
    match fault
    case Throws(landed) =>
      var stranded := if landed then after else StrandMinute(after, n);
      MinuteStrands(after, n, m);
      AnsweredShape(stranded, i, w.retry, FailPolicy(p, w.at, c.caps.Of(p)), FailOpen);
    case Works => AnsweredShape(after, i, w.retry, CapDenied(p, w.at, c.caps.Of(p), w.previous, w.total), NoToken);
  }

  lemma ReleaseStrands(s: State, i: nat, fault: Fault, m: int)
    requires Enabled(s, ReleaseToken(i, fault))
    ensures Strands(s, TokenReleased(s, i, fault), m, if StrandsMinute(s, ReleaseToken(i, fault), m) then 1 else 0, 0)
  {
    if s.callers[i].token.Held? {
      MinuteStrands(s, s.callers[i].token.minute, m);
    }
  }

  lemma CountDayStrands(s: State, i: nat, fault: Fault, m: int)
    requires Enabled(s, CountDay(i, fault)) && s.callers[i].reserved == None
    ensures Strands(s, DayCounted(s, i, fault), m,
                    if StrandsMinute(s, CountDay(i, fault), m) then 1 else 0, if StrandsDay(s, CountDay(i, fault)) then 1 else 0)
  {
    var after := DayAfter(s, Quota.WindowFor(s.now), 1, fault);
    match fault
    case Throws(landed) => ThrownStrands(if landed then after.(strandedDays := s.strandedDays + 1) else after, i, m);
    case Works =>
  }

  lemma GivenBackDayStrands(s: State, after: State, i: nat, fault: Fault, next: Work, m: int)
    requires i < |s.callers| && s.callers[i].reserved.Some? && !s.callers[i].sent && after == s.(counts := after.counts)
    ensures Strands(s, DayGivenBack(after, i, fault, next), m,
                    if fault.Throws? && Forsakes(s, i, m) then 1 else 0, if fault == Throws(false) then 1 else 0)
  {
    match fault
    case Throws(landed) => ThrownStrands(if landed then Put(after, i, after.callers[i].(reserved := None)) else after, i, m);
    case Works =>
  }

  /** Nothing is stranded. */
  predicate StrandsNothing(s: State, t: State) { t.strandedMinutes == s.strandedMinutes && t.strandedDays == s.strandedDays }

  lemma OutsideStrands(s: State, c: Config, step: Step)
    requires step.Tick? || step.Arrive? || step.ObserveHeaders? || step.JudgeDay?
    requires Enabled(s, step)
    ensures StrandsNothing(s, Next(s, c, step))
  {}

  lemma AskingStrands(s: State, c: Config, step: Step)
    requires step.BeginAcquire? || step.ReadMinute?
    requires Enabled(s, step)
    ensures StrandsNothing(s, Next(s, c, step))
  {}

  lemma PlainStrands(s: State, c: Config, step: Step)
    requires Plain(step)
    requires Enabled(s, step)
    ensures StrandsNothing(s, Next(s, c, step))
  {
    if Reads(step) {
      ReadsStrand(s, c, step);
    } else if Shares(step) {
      SharesStrand(s, c, step);
    }
  }

  lemma ReadsStrand(s: State, c: Config, step: Step)
    requires Reads(step)
    requires Enabled(s, step)
    ensures StrandsNothing(s, Next(s, c, step))
  {}

  lemma SharesStrand(s: State, c: Config, step: Step)
    requires Shares(step)
    requires Enabled(s, step)
    ensures StrandsNothing(s, Next(s, c, step))
  {}

  lemma DayStepStrands(s: State, c: Config, step: Step, m: int)
    requires step.CountDay? || step.GiveBackDay? || step.RefundQuota?
    requires Enabled(s, step) && HoldsOk(s.callers[step.caller])
    ensures Strands(s, Next(s, c, step), m, if StrandsMinute(s, step, m) then 1 else 0, if StrandsDay(s, step) then 1 else 0)
  {
    match step
    case CountDay(i, fault) => CountDayStrands(s, i, fault, m);
    case GiveBackDay(i, fault) =>
      GivenBackDayStrands(s, DayAfter(s, s.callers[i].phase.work.window, -1, fault), i, fault, Releasing(Denied), m);
    case RefundQuota(i, fault) =>
      GivenBackDayStrands(s, DayAfter(s, Quota.WindowFor(s.now), -1, fault), i, fault, Settling(Skipped), m);
  }

  lemma MinuteStepStrands(s: State, c: Config, step: Step, m: int)
    requires step.CountMinute? || step.GiveBackMinute? || step.ReleaseToken? || step.Reject?
    requires Enabled(s, step)
    ensures Strands(s, Next(s, c, step), m, if StrandsMinute(s, step, m) then 1 else 0, if StrandsDay(s, step) then 1 else 0)
  {
    match step
    case CountMinute(i, fault) => CountMinuteStrands(s, c, i, fault, m);
    case GiveBackMinute(i, fault) => GiveBackMinuteStrands(s, c, i, fault, m);
    case ReleaseToken(i, fault) => ReleaseStrands(s, i, fault, m);
    case Reject(i) => ThrownStrands(s, i, m);
  }

  lemma StepStrands(s: State, c: Config, day: int, step: Step, m: int)
    requires CallersOk(s, c, day) && Enabled(s, step)
    ensures Strands(s, Next(s, c, step), m, if StrandsMinute(s, step, m) then 1 else 0, if StrandsDay(s, step) then 1 else 0)
  {
    if step.CountDay? || step.GiveBackDay? || step.RefundQuota? {
      assert CallerOk(s.callers[step.caller], c, s.now, day);
      DayStepStrands(s, c, step, m);
    } else if step.CountMinute? || step.GiveBackMinute? || step.ReleaseToken? || step.Reject? {
      MinuteStepStrands(s, c, step, m);
    } else if Plain(step) {
      PlainStrands(s, c, step);
    } else if step.BeginAcquire? || step.ReadMinute? {
      AskingStrands(s, c, step);
    } else {
      OutsideStrands(s, c, step);
    }
  }

  lemma {:induction false} RunStrands(s: State, c: Config, day: int, steps: seq<Step>, m: int)
    requires Inv(s, c, day) && RunOk(s, c, steps) && Quota.WindowFor(Run(s, c, steps).now) == day
    ensures Strands(s, Run(s, c, steps), m, MinutesStranded(s, c, steps, m), DaysStranded(s, c, steps))
    decreases |steps|
  {
    if |steps| > 0 {
      StillThatDay(s, c, day, steps);
      StepKeepsInv(s, c, day, steps[0]);
      StepStrands(s, c, day, steps[0], m);
      RunStrands(Next(s, c, steps[0]), c, day, steps[1..], m);
    }
  }

  // ----------------------------------------------------------- main results

  predicate AtRest(s: State) {
    forall i :: 0 <= i < |s.callers| ==> s.callers[i].phase.Done? || s.callers[i].phase.Shared?
  }

  /** What finished callers hold is what they sent. */
  lemma SharesAtRest(s: State, c: Config, day: int, m: int)
    requires CallersOk(s, c, day) && AtRest(s)
    ensures Sum(s.callers, Holding(DaySlip())) == Sum(s.callers, Attempts())
    ensures Sum(s.callers, MinuteShare(m)) == Sum(s.callers, AttemptsInMinute(m))
  {
    assert forall i :: 0 <= i < |s.callers| ==> CallerOk(s.callers[i], c, s.now, day);
    SumMonotone(s.callers, Holding(DaySlip()), Attempts());
    SumMonotone(s.callers, Attempts(), Holding(DaySlip()));
    SumMonotone(s.callers, MinuteShare(m), AttemptsInMinute(m));
    SumMonotone(s.callers, AttemptsInMinute(m), MinuteShare(m));
  }

  lemma {:induction false} CountsAtRest(now: int, c: Config, steps: seq<Step>, s: State, m: int)
    requires RunOk(Init(now), c, steps) && s == Run(Init(now), c, steps) && AtRest(s)
    requires Quota.WindowFor(s.now) == Quota.WindowFor(now) && Inv(s, c, Quota.WindowFor(now))
    ensures Quota.Count(s.counts, Quota.WindowFor(now)) == Sum(s.callers, Attempts()) + DaysStranded(Init(now), c, steps)
    ensures s.now < (m + 2) * MINUTE_MS ==>
      ReadBucket(s.limiter.buckets, m, s.now) == Sum(s.callers, AttemptsInMinute(m)) + MinutesStranded(Init(now), c, steps, m)
  {
    assert Inv(Init(now), c, Quota.WindowFor(now));
    RunStrands(Init(now), c, Quota.WindowFor(now), steps, m);
    SharesAtRest(s, c, Quota.WindowFor(now), m);
  }

  /**
    Conservation. When every caller has finished, the day's counter is the number of calls that
    reached the provider and of the steps that stranded a reservation; and each bucket that can
    still be read is the number of those calls that took a token of its minute and of the steps
    that stranded one there. Cached, throttled, denied and skipped calls have left nothing; a call
    holds a reservation and a token, which a failing store did not count, exactly if it was sent.
  */
  lemma {:induction false} CallConservation(now: int, c: Config, steps: seq<Step>)
    requires RunOk(Init(now), c, steps)
    requires var s := Run(Init(now), c, steps); Quota.WindowFor(s.now) == Quota.WindowFor(now) && AtRest(s)
    ensures var s := Run(Init(now), c, steps);
            && Quota.Count(s.counts, Quota.WindowFor(now)) == Sum(s.callers, Attempts()) + DaysStranded(Init(now), c, steps)
            && (forall m :: s.now < (m + 2) * MINUTE_MS ==>
                  ReadBucket(s.limiter.buckets, m, s.now) == Sum(s.callers, AttemptsInMinute(m)) + MinutesStranded(Init(now), c, steps, m))
            && (forall i :: 0 <= i < |s.callers| ==>
                  && (s.callers[i].sent <==> s.callers[i].reserved.Some?) && (s.callers[i].sent <==> s.callers[i].token != NoToken))
  {
    var day := Quota.WindowFor(now);
    var s := Reached(now, c, steps);
    CountsAtRest(now, c, steps, s, 0);
    forall m
      ensures s.now < (m + 2) * MINUTE_MS ==>
        ReadBucket(s.limiter.buckets, m, s.now) == Sum(s.callers, AttemptsInMinute(m)) + MinutesStranded(Init(now), c, steps, m)
    {
      CountsAtRest(now, c, steps, s, m);
    }
    assert forall i :: 0 <= i < |s.callers| ==> CallerOk(s.callers[i], c, s.now, day);
  }

  /** No step of the run satisfies `StrandsDay`. */
  predicate NoDayStranded(s: State, c: Config, steps: seq<Step>)
    requires RunOk(s, c, steps)
    decreases |steps|
  {
    |steps| == 0 || (!StrandsDay(s, steps[0]) && NoDayStranded(Next(s, c, steps[0]), c, steps[1..]))
  }

  predicate NoMinuteStranded(s: State, c: Config, steps: seq<Step>, m: int)
    requires RunOk(s, c, steps)
    decreases |steps|
  {
    |steps| == 0 || (!StrandsMinute(s, steps[0], m) && NoMinuteStranded(Next(s, c, steps[0]), c, steps[1..], m))
  }

  lemma {:induction false} NoneStranded(s: State, c: Config, steps: seq<Step>, m: int)
    requires RunOk(s, c, steps)
    ensures NoDayStranded(s, c, steps) <==> DaysStranded(s, c, steps) == 0
    ensures NoMinuteStranded(s, c, steps, m) <==> MinutesStranded(s, c, steps, m) == 0
    decreases |steps|
  {
    if |steps| > 0 {
      NoneStranded(Next(s, c, steps[0]), c, steps[1..], m);
    }
  }

  /** The day's counter is exactly the attempts if and only if no step of the run stranded a reservation. */
  lemma {:induction false} DailyCountIsExactIff(now: int, c: Config, steps: seq<Step>)
    requires RunOk(Init(now), c, steps)
    requires var s := Run(Init(now), c, steps); Quota.WindowFor(s.now) == Quota.WindowFor(now) && AtRest(s)
    ensures var s := Run(Init(now), c, steps);
            Quota.Count(s.counts, Quota.WindowFor(now)) == Sum(s.callers, Attempts()) <==> NoDayStranded(Init(now), c, steps)
  {
    CallConservation(now, c, steps);
    NoneStranded(Init(now), c, steps, 0);
  }

  /** A bucket that can be read is exactly the attempts of its minute if and only if no step of the run stranded a token there. */
  lemma {:induction false} MinuteCountIsExactIff(now: int, c: Config, steps: seq<Step>, m: int)
    requires RunOk(Init(now), c, steps)
    requires var s := Run(Init(now), c, steps);
             Quota.WindowFor(s.now) == Quota.WindowFor(now) && AtRest(s) && s.now < (m + 2) * MINUTE_MS
    ensures var s := Run(Init(now), c, steps);
            ReadBucket(s.limiter.buckets, m, s.now) == Sum(s.callers, AttemptsInMinute(m)) <==> NoMinuteStranded(Init(now), c, steps, m)
  {
    CallConservation(now, c, steps);
    NoneStranded(Init(now), c, steps, m);
  }

  // -------------------------------------------------------------------- caps

  predicate NoHigher(p: Priority, q: Priority) { p == q || q == Live || p == Background }

  /** Calls sent by class `p` or a class below it on a token of minute `m` that was counted in time. */
  function AttemptsUpTo(m: int, p: Priority): Caller -> int {
    (k: Caller) => if k.sent && MinuteSlip(m)(k).Some? && NoHigher(k.request.priority, p) then 1 else 0
  }

  lemma AttemptsWithinCeiling(s: State, c: Config, day: int, m: int, p: Priority)
    requires Inv(s, c, day) && c.caps.Valid()
    ensures Sum(s.callers, AttemptsUpTo(m, p)) <= c.caps.Of(p)
  {
    forall i | 0 <= i < |s.callers| && AttemptsUpTo(m, p)(s.callers[i]) == 1
      ensures MinuteSlip(m)(s.callers[i]).Some? && MinuteSlip(m)(s.callers[i]).value.total <= c.caps.Of(p)
    {
      assert CallerOk(s.callers[i], c, s.now, day);
    }
    KeptWithin(s.callers, MinuteSlip(m), s.orders, AttemptsUpTo(m, p), c.caps.Of(p));
  }

  lemma AttemptsWithinDailyCaps(s: State, c: Config, day: int)
    requires Inv(s, c, day) && Quota.ValidConfig(c.quota)
    ensures Sum(s.callers, Attempts()) <= c.quota.hardCap && Sum(s.callers, BackgroundAttempts()) <= c.quota.backgroundDailyCap
  {
    forall i | 0 <= i < |s.callers| && s.callers[i].sent
      ensures s.callers[i].reserved.Some?
      ensures Quota.CapPassed(c.quota, Some(s.callers[i].request.priority), s.callers[i].reserved.value.total).None?
    {
      assert CallerOk(s.callers[i], c, s.now, day);
    }
    KeptWithin(s.callers, DaySlip(), s.orders, Attempts(), c.quota.hardCap);
    KeptWithin(s.callers, DaySlip(), s.orders, BackgroundAttempts(), c.quota.backgroundDailyCap);
  }

  /** While a bucket can be read, every token of its minute was counted in time. */
  lemma AllInTime(s: State, c: Config, day: int, m: int)
    requires Inv(s, c, day) && s.now < (m + 2) * MINUTE_MS
    ensures Sum(s.callers, AttemptsInMinute(m)) <= Sum(s.callers, AttemptsUpTo(m, Live))
  {
    assert forall i :: 0 <= i < |s.callers| ==> CallerOk(s.callers[i], c, s.now, day);
    SumMonotone(s.callers, AttemptsInMinute(m), AttemptsUpTo(m, Live));
  }

  /**
    Caps, end to end. At every moment of every run inside one day, with acquires and reservations
    taken apart into their store operations, any of these throwing, and calls still in progress:
    attempts stay within the hard cap, background attempts within the background cap, and the
    attempts of a class and those below it on the tokens of one minute within the class ceiling.
    A token is left out if its increment came after the bucket of its minute could be read.
  */
  lemma {:induction false} AttemptsWithinCaps(now: int, c: Config, steps: seq<Step>, m: int, p: Priority)
    requires c.caps.Valid() && Quota.ValidConfig(c.quota) && RunOk(Init(now), c, steps)
    requires Quota.WindowFor(Run(Init(now), c, steps).now) == Quota.WindowFor(now)
    ensures var s := Run(Init(now), c, steps);
            && Sum(s.callers, Attempts()) <= c.quota.hardCap
            && Sum(s.callers, BackgroundAttempts()) <= c.quota.backgroundDailyCap
            && Sum(s.callers, AttemptsUpTo(m, p)) <= c.caps.Of(p)
            && (s.now < (m + 2) * MINUTE_MS ==> Sum(s.callers, AttemptsInMinute(m)) <= c.caps.live)
  {
    var day := Quota.WindowFor(now);
    var s := Reached(now, c, steps);
    AttemptsWithinDailyCaps(s, c, day);
    AttemptsWithinCeiling(s, c, day, m, p);
    if s.now < (m + 2) * MINUTE_MS {
      AllInTime(s, c, day, m);
      AttemptsWithinCeiling(s, c, day, m, Live);
    }
  }
}
