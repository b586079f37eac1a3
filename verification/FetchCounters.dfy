/**
  The daily counter and the minute buckets of `fetchWorkload`'s callers: what each operation on a
  store does to the agreement between a counter, the callers it counts, and what was stranded in it.
*/
module FetchCounters {
  import opened Common
  import opened Sums
  import opened Slips
  import opened MinuteLimiter
  import opened FetchPipeline
  import Quota

  // ------------------------------------------------------------- who counts

  function MinuteShare(m: int): Caller -> int {
    (k: Caller) => if k.token.Held? && k.token.minute == m then 1 else 0
  }

  function MinuteSlip(m: int): Caller -> Option<Slip> {
    (k: Caller) => if k.token.Held? && k.token.minute == m && k.token.inTime then Some(k.token.slip) else None
  }

  function DaySlip(): Caller -> Option<Slip> { (k: Caller) => k.reserved }

  function IsMinute(m: int): int -> int { (stranded: int) => if stranded == m then 1 else 0 }

  /** A bucket that can still be read counts the callers that hold a token of its minute, and what was stranded there. */
  ghost predicate MinutesOk(b: Buckets, now: int, callers: seq<Caller>, stranded: seq<int>, orders: nat) {
    && Tidy(b, now)
    && (forall m :: now < (m + 2) * MINUTE_MS ==> ReadBucket(b, m, now) == Sum(callers, MinuteShare(m)) + Sum(stranded, IsMinute(m)))
    && (forall m :: InOrder(callers, MinuteSlip(m), orders))
  }

  ghost predicate DayOk(counts: Quota.Counts, day: int, callers: seq<Caller>, stranded: nat, orders: nat) {
    && Quota.NonNegative(counts)
    && Quota.Count(counts, day) == Sum(callers, Holding(DaySlip())) + stranded
    && InOrder(callers, DaySlip(), orders)
  }

  // ---------------------------------------------------- the minute counters

  predicate SameToken(k: Caller, k': Caller) { k'.token == k.token || (!k.token.Held? && !k'.token.Held?) }

  lemma MinuteKept(b: Buckets, now: int, callers: seq<Caller>, stranded: seq<int>, orders: nat, i: nat, k: Caller, later: nat)
    requires MinutesOk(b, now, callers, stranded, orders) && i < |callers| && SameToken(callers[i], k) && orders <= later
    ensures MinutesOk(b, now, callers[i := k], stranded, later)
  {
    forall m
      ensures Sum(callers[i := k], MinuteShare(m)) == Sum(callers, MinuteShare(m))
      ensures InOrder(callers[i := k], MinuteSlip(m), later)
    {
      SumUpdate(callers, i, k, MinuteShare(m));
      GiveUpKeepsOrder(callers, MinuteSlip(m), orders, i, k, later);
    }
  }

  lemma {:induction false} InTimeCounted(callers: seq<Caller>, m: int)
    ensures Sum(callers, Holding(MinuteSlip(m))) <= Sum(callers, MinuteShare(m))
  {
    SumMonotone(callers, Holding(MinuteSlip(m)), MinuteShare(m));
  }

  /** An increment that came back: the token and the bucket rise together. */
  lemma MinuteTaken(b: Buckets, now: int, callers: seq<Caller>, stranded: seq<int>, orders: nat, i: nat, k: Caller, m: int)
    requires MinutesOk(b, now, callers, stranded, orders) && i < |callers| && !callers[i].token.Held? && m * MINUTE_MS <= now
    requires k.token == Held(m, Slip(orders, ReadBucket(Incremented(b, m, 1, now, BUCKET_TTL_SECONDS), m, now)), now < (m + 2) * MINUTE_MS)
    ensures MinutesOk(Incremented(b, m, 1, now, BUCKET_TTL_SECONDS), now, callers[i := k], stranded, orders + 1)
  {
    IncrementTidy(b, m, 1, now, now);
    forall n
      ensures now < (n + 2) * MINUTE_MS ==>
        ReadBucket(Incremented(b, m, 1, now, BUCKET_TTL_SECONDS), n, now) == Sum(callers[i := k], MinuteShare(n)) + Sum(stranded, IsMinute(n))
      ensures InOrder(callers[i := k], MinuteSlip(n), orders + 1)
    {
      ReadIncremented(b, m, 1, now, n, now);
      SumUpdate(callers, i, k, MinuteShare(n));
      SumNonNegative(callers, MinuteShare(n));
      SumNonNegative(stranded, IsMinute(n));
      if n == m && now < (m + 2) * MINUTE_MS {
        InTimeCounted(callers, m);
        CountKeepsOrder(callers, MinuteSlip(m), orders, i, k, k.token.slip.total);
      } else {
        GiveUpKeepsOrder(callers, MinuteSlip(n), orders, i, k, orders + 1);
      }
    }
  }

  /** An increment that landed and threw. */
  lemma MinuteStranded(b: Buckets, now: int, callers: seq<Caller>, stranded: seq<int>, orders: nat, m: int)
    requires MinutesOk(b, now, callers, stranded, orders) && m * MINUTE_MS <= now
    ensures MinutesOk(Incremented(b, m, 1, now, BUCKET_TTL_SECONDS), now, callers, stranded + [m], orders)
  {
    IncrementTidy(b, m, 1, now, now);
    forall n | now < (n + 2) * MINUTE_MS
      ensures ReadBucket(Incremented(b, m, 1, now, BUCKET_TTL_SECONDS), n, now) == Sum(callers, MinuteShare(n)) + Sum(stranded + [m], IsMinute(n))
    {
      ReadIncremented(b, m, 1, now, n, now);
      SumAppend(stranded, m, IsMinute(n));
      SumNonNegative(callers, MinuteShare(n));
      SumNonNegative(stranded, IsMinute(n));
    }
  }

  lemma TokenGone(callers: seq<Caller>, orders: nat, i: nat, k: Caller, n: int)
    requires i < |callers| && callers[i].token.Held? && !k.token.Held? && InOrder(callers, MinuteSlip(n), orders)
    ensures InOrder(callers[i := k], MinuteSlip(n), orders)
    ensures Sum(callers[i := k], MinuteShare(n)) == Sum(callers, MinuteShare(n)) - (if callers[i].token.minute == n then 1 else 0)
    ensures 0 <= Sum(callers[i := k], MinuteShare(n))
  {
    GiveUpKeepsOrder(callers, MinuteSlip(n), orders, i, k, orders);
    SumUpdate(callers, i, k, MinuteShare(n));
    SumNonNegative(callers[i := k], MinuteShare(n));
  }

  /** A give-back that landed, whether it threw then or not. */
  lemma MinuteReturned(b: Buckets, now: int, callers: seq<Caller>, stranded: seq<int>, orders: nat, i: nat, k: Caller)
    requires MinutesOk(b, now, callers, stranded, orders) && i < |callers| && callers[i].token.Held? && !k.token.Held?
    requires callers[i].token.minute * MINUTE_MS <= now
    ensures MinutesOk(Incremented(b, callers[i].token.minute, -1, now, BUCKET_TTL_SECONDS), now, callers[i := k], stranded, orders)
  {
    var m := callers[i].token.minute;
    IncrementTidy(b, m, -1, now, now);
    forall n
      ensures InOrder(callers[i := k], MinuteSlip(n), orders)
      ensures now < (n + 2) * MINUTE_MS ==>
        ReadBucket(Incremented(b, m, -1, now, BUCKET_TTL_SECONDS), n, now) == Sum(callers[i := k], MinuteShare(n)) + Sum(stranded, IsMinute(n))
    {
      TokenGone(callers, orders, i, k, n);
      SumNonNegative(stranded, IsMinute(n));
      ReadIncremented(b, m, -1, now, n, now);
    }
  }

  /** A token nobody gives back any more. */
  lemma MinuteLeft(b: Buckets, now: int, callers: seq<Caller>, stranded: seq<int>, orders: nat, i: nat, k: Caller)
    requires MinutesOk(b, now, callers, stranded, orders) && i < |callers| && callers[i].token.Held? && !k.token.Held?
    ensures MinutesOk(b, now, callers[i := k], stranded + [callers[i].token.minute], orders)
  {
    var m := callers[i].token.minute;
    forall n
      ensures InOrder(callers[i := k], MinuteSlip(n), orders)
      ensures now < (n + 2) * MINUTE_MS ==>
        ReadBucket(b, n, now) == Sum(callers[i := k], MinuteShare(n)) + Sum(stranded + [m], IsMinute(n))
    {
      TokenGone(callers, orders, i, k, n);
      SumAppend(stranded, m, IsMinute(n));
    }
  }

  lemma MinutesLater(b: Buckets, now: int, later: int, callers: seq<Caller>, stranded: seq<int>, orders: nat)
    requires MinutesOk(b, now, callers, stranded, orders) && now <= later
    ensures MinutesOk(b, later, callers, stranded, orders)
  {
    forall m | later < (m + 2) * MINUTE_MS
      ensures ReadBucket(b, m, later) == Sum(callers, MinuteShare(m)) + Sum(stranded, IsMinute(m))
    {
      ReadStable(b, m, now, later);
    }
  }

  lemma MinutesJoined(b: Buckets, now: int, callers: seq<Caller>, stranded: seq<int>, orders: nat, r: Request)
    requires MinutesOk(b, now, callers, stranded, orders)
    ensures MinutesOk(b, now, callers + [Newcomer(r)], stranded, orders)
  {
    forall m
      ensures Sum(callers + [Newcomer(r)], MinuteShare(m)) == Sum(callers, MinuteShare(m))
      ensures InOrder(callers + [Newcomer(r)], MinuteSlip(m), orders)
    {
      SumAppend(callers, Newcomer(r), MinuteShare(m));
      JoinKeepsOrder(callers, MinuteSlip(m), orders, Newcomer(r));
    }
  }

  // ------------------------------------------------------- the day's counter

  lemma DayKept(counts: Quota.Counts, day: int, callers: seq<Caller>, stranded: nat, orders: nat, i: nat, k: Caller, later: nat)
    requires DayOk(counts, day, callers, stranded, orders) && i < |callers| && k.reserved == callers[i].reserved && orders <= later
    ensures DayOk(counts, day, callers[i := k], stranded, later)
  {
    SumUpdate(callers, i, k, Holding(DaySlip()));
    GiveUpKeepsOrder(callers, DaySlip(), orders, i, k, later);
  }

  lemma DayTaken(counts: Quota.Counts, day: int, callers: seq<Caller>, stranded: nat, orders: nat, i: nat, k: Caller)
    requires DayOk(counts, day, callers, stranded, orders) && i < |callers| && callers[i].reserved == None
    requires k.reserved == Some(Slip(orders, Quota.Count(Quota.Added(counts, day, 1), day)))
    ensures DayOk(Quota.Added(counts, day, 1), day, callers[i := k], stranded, orders + 1)
  {
    SumNonNegative(callers, Holding(DaySlip()));
    SumUpdate(callers, i, k, Holding(DaySlip()));
    CountKeepsOrder(callers, DaySlip(), orders, i, k, k.reserved.value.total);
  }

  lemma DayStranded(counts: Quota.Counts, day: int, callers: seq<Caller>, stranded: nat, orders: nat)
    requires DayOk(counts, day, callers, stranded, orders)
    ensures DayOk(Quota.Added(counts, day, 1), day, callers, stranded + 1, orders)
  {
    SumNonNegative(callers, Holding(DaySlip()));
  }

  lemma DayReturned(counts: Quota.Counts, day: int, callers: seq<Caller>, stranded: nat, orders: nat, i: nat, k: Caller)
    requires DayOk(counts, day, callers, stranded, orders) && i < |callers| && callers[i].reserved.Some? && k.reserved == None
    ensures DayOk(Quota.Added(counts, day, -1), day, callers[i := k], stranded, orders)
  {
    SumUpdate(callers, i, k, Holding(DaySlip()));
    SumNonNegative(callers[i := k], Holding(DaySlip()));
    GiveUpKeepsOrder(callers, DaySlip(), orders, i, k, orders);
  }

  lemma DayLeft(counts: Quota.Counts, day: int, callers: seq<Caller>, stranded: nat, orders: nat, i: nat, k: Caller)
    requires DayOk(counts, day, callers, stranded, orders) && i < |callers| && callers[i].reserved.Some? && k.reserved == None
    ensures DayOk(counts, day, callers[i := k], stranded + 1, orders)
  {
    SumUpdate(callers, i, k, Holding(DaySlip()));
    GiveUpKeepsOrder(callers, DaySlip(), orders, i, k, orders);
  }

  lemma DayJoined(counts: Quota.Counts, day: int, callers: seq<Caller>, stranded: nat, orders: nat, r: Request)
    requires DayOk(counts, day, callers, stranded, orders)
    ensures DayOk(counts, day, callers + [Newcomer(r)], stranded, orders)
  {
    SumAppend(callers, Newcomer(r), Holding(DaySlip()));
    JoinKeepsOrder(callers, DaySlip(), orders, Newcomer(r));
  }
}
