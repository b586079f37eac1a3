/**
  One caller's whole call with nobody else moving: some run of its own steps and the clock ends it,
  as `fetchWorkload` run alone ends, with the same cost and the same cache.
*/
module FetchSolo {
  import opened Common
  import opened MinuteLimiter
  import opened FetchPipeline
  import opened FetchAlone
  import Solo = FetchWorkload
  import Quota
  import Cache = ProviderCache
  import Flight = SingleflightMap
  import Slips

  /** Steps of caller `i`, and time. */
  predicate Mine(steps: seq<Step>, i: nat) {
    forall k :: 0 <= k < |steps| ==> OfCaller(steps[k], i)
  }

  predicate OfCaller(step: Step, i: nat) {
    match step
    case Tick(_) => true
    case Arrive(_) => false
    case ObserveHeaders(_, _, _) => false
    case _ => step.caller == i
  }

  /** These steps of caller `i` lead from `s` to `t`. */
  predicate Leads(s: State, c: Config, i: nat, steps: seq<Step>, t: State) {
    Mine(steps, i) && RunOk(s, c, steps) && Run(s, c, steps) == t
  }

  lemma LeadsNowhere(s: State, c: Config, i: nat)
    ensures Leads(s, c, i, [], s)
  {}

  lemma LeadsBy(s: State, c: Config, i: nat, step: Step)
    requires Enabled(s, step) && OfCaller(step, i)
    ensures Leads(s, c, i, [step], Next(s, c, step))
  {
    assert [step][1..] == [];
    LeadsNowhere(Next(s, c, step), c, i);
  }

  lemma {:induction false} LeadsOn(s: State, c: Config, i: nat, xs: seq<Step>, t: State, ys: seq<Step>, u: State)
    requires Leads(s, c, i, xs, t) && Leads(t, c, i, ys, u)
    ensures Leads(s, c, i, xs + ys, u)
    decreases |xs|
  {
    if |xs| == 0 {
      assert xs + ys == ys;
    } else {
      var all, rest := xs + ys, xs[1..];
      assert all[0] == xs[0] && all[1..] == rest + ys;
      forall k | 0 <= k < |rest|
        ensures OfCaller(rest[k], i)
      {
        assert rest[k] == xs[k + 1];
      }
      LeadsOn(Next(s, c, xs[0]), c, i, rest, t, ys, u);
      assert Mine(all, i) by {
        forall k | 0 <= k < |all|
          ensures OfCaller(all[k], i)
        {}
      }
    }
  }

  /** What caller `i` does at the limiter leaves the day's counter, the cache, the claims and the clock alone. */
  predicate Kept(s: State, t: State, i: nat) {
    && i < |s.callers| == |t.callers| && t.callers[i].request == s.callers[i].request
    && t.now == s.now && t.counts == s.counts && t.remote == s.remote && t.cache == s.cache && t.inflight == s.inflight
    && t.callers[i].reserved == s.callers[i].reserved && t.callers[i].sent == s.callers[i].sent
  }

  lemma AnswerKept(s: State, base: State, i: nat, retry: bool, r: AcquireResult, token: Token)
    requires Kept(s, base, i)
    ensures Kept(s, WithAnswer(base, i, retry, r, token), i)
  {}

  lemma PolicyKept(s: State, base: State, c: Config, i: nat, retry: bool, at: int)
    requires Kept(s, base, i)
    ensures Kept(s, AnsweredByPolicy(base, c, i, retry, at), i)
  {
    var p := base.callers[i].request.priority;
    AnswerKept(s, base, i, retry, FailPolicy(p, at, c.caps.Of(p)), FailOpen);
  }

  lemma BegunKept(s: State, c: Config, i: nat)
    requires Enabled(s, BeginAcquire(i))
    ensures Kept(s, AcquireBegun(s, c, i), i)
  {
    var p := s.callers[i].request.priority;
    AnswerKept(s, s, i, s.callers[i].phase.work.retry, HeaderDenied(p, s.now, c.caps.Of(p)), NoToken);
  }

  lemma ReadKept(s: State, c: Config, i: nat, throws: bool)
    requires Enabled(s, ReadMinute(i, throws))
    ensures Kept(s, MinuteRead(s, c, i, throws), i)
  {
    var w := s.callers[i].phase.work;
    PolicyKept(s, s, c, i, w.retry, w.at);
  }

  lemma JudgedKept(s: State, base: State, c: Config, i: nat, w: Work, total: int, token: Token)
    requires Kept(s, base, i) && w.Counting?
    ensures Kept(s, MinuteJudged(base, c, i, w, total, token), i)
  {
    var p := base.callers[i].request.priority;
    AnswerKept(s, base, i, w.retry, Admitted(p, w.at, c.caps.Of(p), w.previous, total), token);
  }

  lemma CountKept(s: State, c: Config, i: nat, fault: Fault)
    requires Enabled(s, CountMinute(i, fault))
    ensures Kept(s, MinuteCounted(s, c, i, fault), i)
  {
    var w := s.callers[i].phase.work;
    var m := Minute(w.at);
    var after := BucketAfter(s, m, 1, fault);
    match fault
    case Throws(landed) => PolicyKept(s, if landed then StrandMinute(after, m) else after, c, i, w.retry, w.at);
    case Works =>
      var total := ReadBucket(after.limiter.buckets, m, s.now);
      JudgedKept(s, after.(orders := s.orders + 1), c, i, w, total, Held(m, Slips.Slip(s.orders, total), s.now < (m + 2) * MINUTE_MS));
  }

  lemma GiveBackKept(s: State, c: Config, i: nat, fault: Fault)
    requires Enabled(s, GiveBackMinute(i, fault))
    ensures Kept(s, MinuteGivenBack(s, c, i, fault), i)
  {
    var p, w := s.callers[i].request.priority, s.callers[i].phase.work;
    var m, after := Minute(w.at), BucketAfter(s, Minute(w.at), -1, fault);
    match fault
    case Throws(landed) => PolicyKept(s, if landed then after else StrandMinute(after, m), c, i, w.retry, w.at);
    case Works => AnswerKept(s, after, i, w.retry, CapDenied(p, w.at, c.caps.Of(p), w.previous, w.total), NoToken);
  }

  lemma KeptOn(s: State, t: State, u: State, i: nat)
    requires Kept(s, t, i) && Kept(t, u, i)
    ensures Kept(s, u, i)
  {}

  /** From the count on. */
  lemma CountLeads(s: State, c: Config, i: nat, works: bool) returns (steps: seq<Step>)
    requires Enabled(s, CountMinute(i, Works))
    ensures Working(MinuteCounted(s, c, i, Works), i)
    ensures var t := AloneGivenBack(MinuteCounted(s, c, i, Works), c, i, works); Leads(s, c, i, steps, t) && Kept(s, t, i)
  {
    var counted := MinuteCounted(s, c, i, Works);
    CountKept(s, c, i, Works);
    LeadsBy(s, c, i, CountMinute(i, Works));
    steps := [CountMinute(i, Works)];
    if counted.callers[i].phase.work.GivingBack? {
      var back := GiveBackMinute(i, if works then Works else Throws(false));
      LeadsBy(counted, c, i, back);
      GiveBackKept(counted, c, i, back.fault);
      KeptOn(s, counted, MinuteGivenBack(counted, c, i, back.fault), i);
      LeadsOn(s, c, i, steps, counted, [back], MinuteGivenBack(counted, c, i, back.fault));
      steps := steps + [back];
    }
  }

  /** From the read on. */
  lemma ReadLeads(s: State, c: Config, i: nat, fault: StoreFault) returns (steps: seq<Step>, t: State)
    requires Enabled(s, ReadMinute(i, false))
    ensures Leads(s, c, i, steps, t) && Kept(s, t, i)
    ensures t == if fault == ReadFails then MinuteRead(s, c, i, true)
                 else if fault == IncrementFails then MinuteCounted(MinuteRead(s, c, i, false), c, i, Throws(false))
                 else AloneGivenBack(MinuteCounted(MinuteRead(s, c, i, false), c, i, Works), c, i, fault != RefundFails)
  {
    if fault == ReadFails {
      ReadKept(s, c, i, true);
      LeadsBy(s, c, i, ReadMinute(i, true));
      return [ReadMinute(i, true)], MinuteRead(s, c, i, true);
    }
    var counting := MinuteRead(s, c, i, false);
    ReadKept(s, c, i, false);
    LeadsBy(s, c, i, ReadMinute(i, false));
    var rest: seq<Step>;
    if fault == IncrementFails {
      CountKept(counting, c, i, Throws(false));
      LeadsBy(counting, c, i, CountMinute(i, Throws(false)));
      rest, t := [CountMinute(i, Throws(false))], MinuteCounted(counting, c, i, Throws(false));
    } else {
      rest := CountLeads(counting, c, i, fault != RefundFails);
      t := AloneGivenBack(MinuteCounted(counting, c, i, Works), c, i, fault != RefundFails);
    }
    KeptOn(s, counting, t, i);
    LeadsOn(s, c, i, [ReadMinute(i, false)], counting, rest, t);
    steps := [ReadMinute(i, false)] + rest;
  }

  /** One `tryAcquire`: its own steps alone, and nothing else touched. */
  lemma AcquireLeads(s: State, c: Config, i: nat, fault: StoreFault) returns (steps: seq<Step>)
    requires Enabled(s, BeginAcquire(i))
    ensures var t := AloneAcquired(s, c, i, fault); Leads(s, c, i, steps, t) && Kept(s, t, i)
  {
    var begun := AcquireBegun(s, c, i);
    BegunKept(s, c, i);
    LeadsBy(s, c, i, BeginAcquire(i));
    steps := [BeginAcquire(i)];
    if begun.callers[i].phase.work.Reading? {
      var rest, t := ReadLeads(begun, c, i, fault);
      KeptOn(s, begun, t, i);
      LeadsOn(s, c, i, steps, begun, rest, t);
      steps := steps + rest;
    }
  }

  // ------------------------------------------------------- the minute's turn

  /** In `t` caller `i` of `s` has had its turn at the limiter. */
  predicate TurnTaken(s: State, t: State, i: nat, turn: Solo.MinuteTurn) {
    && i < |s.callers| == |t.callers| && t.callers[i].request == s.callers[i].request
    && t.now == turn.at && t.limiter == turn.after
    && t.counts == s.counts && t.remote == s.remote && t.cache == s.cache && t.inflight == s.inflight
    && t.callers[i].reserved == s.callers[i].reserved && t.callers[i].sent == s.callers[i].sent
    && t.callers[i].token.Held? == (turn.token.allowed && !turn.token.failOpen)
    && (t.callers[i].token == FailOpen) == (turn.token.allowed && turn.token.failOpen)
    && (t.callers[i].token.Held? ==> t.callers[i].token.minute == turn.token.epochMinute)
    && t.callers[i].phase == Leading(if turn.token.allowed then Reserving else Settling(ThrottledBy(t, t.callers[i].request)))
  }

  /** How a caller without a token ends. */
  function ThrottledBy(s: State, r: Request): Outcome {
    if r.priority == Live && Cache.Lookup(s.cache, LastGood(r.resource), s.now).Some? then StaleServed else Throttled
  }

  function SoloTurn(s: State, c: Config, i: nat, world: Solo.World): Solo.MinuteTurn
    requires i < |s.callers|
  {
    var p := s.callers[i].request.priority;
    Solo.TurnFrom(Solo.Limiter(c.caps, c.headerReserve, p), p == Live, s.limiter, s.now, [world.first, world.second])
  }

  /** The first ask is the only one: let through, or live. */
  lemma AskedOnce(s: State, c: Config, i: nat, world: Solo.World) returns (steps: seq<Step>)
    requires At(s, i, Leading(Acquiring(false)))
    requires var r := Acquire(s.limiter, c.caps, c.headerReserve, s.callers[i].request.priority, s.now, world.first).1;
             r.allowed || s.callers[i].request.priority == Live
    ensures var t := AloneAcquired(s, c, i, world.first);
            Leads(s, c, i, steps, t) && TurnTaken(s, t, i, SoloTurn(s, c, i, world))
  {
    var p := s.callers[i].request.priority;
    steps := AcquireLeads(s, c, i, world.first);
    AloneIsAcquire(s, c, i, world.first);
    Solo.TwoAsks(Solo.Limiter(c.caps, c.headerReserve, p), p == Live, s.limiter, s.now, world);
  }

  /** Refused, it sleeps. */
  lemma FallsAsleep(s: State, c: Config, i: nat, fault: StoreFault) returns (steps: seq<Step>, t: State, woken: State, first: AcquireResult)
    requires At(s, i, Leading(Acquiring(false))) && s.callers[i].request.priority != Live
    requires !Acquire(s.limiter, c.caps, c.headerReserve, s.callers[i].request.priority, s.now, fault).1.allowed
    ensures (t.limiter, first) == Acquire(s.limiter, c.caps, c.headerReserve, s.callers[i].request.priority, s.now, fault)
    ensures Leads(s, c, i, steps, woken) && At(woken, i, Leading(Acquiring(true))) && Kept(s, t, i)
    ensures woken == t.(now := woken.now, callers := woken.callers) && Kept(s, woken.(now := s.now), i)
    ensures woken.now == s.now + Max0(Min(60_000, if first.retryAfterMs.Some? then first.retryAfterMs.value else first.msUntilNextMinute))
  {
    t := AloneAcquired(s, c, i, fault);
    first := Acquire(s.limiter, c.caps, c.headerReserve, s.callers[i].request.priority, s.now, fault).1;
    var asked := AcquireLeads(s, c, i, fault);
    AloneIsAcquire(s, c, i, fault);
    var ms: nat := t.callers[i].phase.work.until - t.now;
    var later := Next(t, c, Tick(ms));
    woken := Next(later, c, Wake(i));
    LeadsBy(t, c, i, Tick(ms));
    LeadsBy(later, c, i, Wake(i));
    LeadsOn(t, c, i, [Tick(ms)], later, [Wake(i)], woken);
    LeadsOn(s, c, i, asked, t, [Tick(ms)] + [Wake(i)], woken);
    steps := asked + ([Tick(ms)] + [Wake(i)]);
  }

  /** And asks a second time. */
  lemma AskedTwice(s: State, c: Config, i: nat, world: Solo.World) returns (steps: seq<Step>, t: State)
    requires At(s, i, Leading(Acquiring(false))) && s.callers[i].request.priority != Live
    requires !Acquire(s.limiter, c.caps, c.headerReserve, s.callers[i].request.priority, s.now, world.first).1.allowed
    ensures Leads(s, c, i, steps, t) && TurnTaken(s, t, i, SoloTurn(s, c, i, world))
  {
    var p := s.callers[i].request.priority;
    var nap, asleep, woken, first := FallsAsleep(s, c, i, world.first);
    var again := AcquireLeads(woken, c, i, world.second);
    AloneIsAcquire(woken, c, i, world.second);
    t := AloneAcquired(woken, c, i, world.second);
    LeadsOn(s, c, i, nap, woken, again, t);
    steps := nap + again;
    Solo.TwoAsks(Solo.Limiter(c.caps, c.headerReserve, p), p == Live, s.limiter, s.now, world);
  }

  lemma TurnLeads(s: State, c: Config, i: nat, world: Solo.World) returns (steps: seq<Step>, t: State)
    requires At(s, i, Leading(Acquiring(false)))
    ensures Leads(s, c, i, steps, t) && TurnTaken(s, t, i, SoloTurn(s, c, i, world))
  {
    var p := s.callers[i].request.priority;
    if Acquire(s.limiter, c.caps, c.headerReserve, p, s.now, world.first).1.allowed || p == Live {
      steps := AskedOnce(s, c, i, world);
      t := AloneAcquired(s, c, i, world.first);
    } else {
      steps, t := AskedTwice(s, c, i, world);
    }
  }

  // --------------------------------------------- the reservation and the reply

  /** The reservation leaves everything but the day's counter and the caller's own phase and slip alone. */
  predicate Reserved(s: State, t: State, i: nat) {
    && i < |s.callers| == |t.callers| && t.callers[i].request == s.callers[i].request && t.callers[i].token == s.callers[i].token
    && t.now == s.now && t.limiter == s.limiter && t.remote == s.remote && t.cache == s.cache && t.inflight == s.inflight
  }

  lemma ReserveLeads(s: State, c: Config, i: nat) returns (steps: seq<Step>, t: State)
    requires At(s, i, Leading(Reserving))
    ensures Leads(s, c, i, steps, t) && Reserved(s, t, i)
    ensures var (counts, r) := Quota.Reserved(c.quota, s.remote, s.counts, 1, Some(s.callers[i].request.priority), s.now);
            t.counts == counts && t.callers[i].phase == Leading(if r.allowed then Requesting else Releasing(Denied))
  {
    AloneIsReserve(s, c, i);
    var counted := DayCounted(s, i, Works);
    var judged := Next(counted, c, JudgeDay(i));
    LeadsBy(s, c, i, CountDay(i, Works));
    LeadsBy(counted, c, i, JudgeDay(i));
    LeadsOn(s, c, i, [CountDay(i, Works)], counted, [JudgeDay(i)], judged);
    steps, t := [CountDay(i, Works)] + [JudgeDay(i)], judged;
    if judged.callers[i].phase.work.Refusing? {
      t := Next(judged, c, GiveBackDay(i, Works));
      LeadsBy(judged, c, i, GiveBackDay(i, Works));
      LeadsOn(s, c, i, steps, judged, [GiveBackDay(i, Works)], t);
      steps := steps + [GiveBackDay(i, Works)];
    }
  }

  /** The token of a call that was not sent is given back. */
  lemma ReleaseLeads(s: State, c: Config, i: nat, r: AcquireResult)
    requires Working(s, i) && s.callers[i].phase.work.Releasing? && r.allowed
    requires s.callers[i].token.Held? == !r.failOpen && (s.callers[i].token.Held? ==> s.callers[i].token.minute == r.epochMinute)
    ensures var t, w := Next(s, c, ReleaseToken(i, Works)), s.callers[i].phase.work;
            && Leads(s, c, i, [ReleaseToken(i, Works)], t)
            && t == s.(limiter := Released(s.limiter, r, s.now), callers := t.callers) && |t.callers| == |s.callers|
            && t.callers[i] == s.callers[i].(token := NoToken, phase := Leading(if w.outcome == Skipped then Refunding else Settling(w.outcome)))
  {
    LeadsBy(s, c, i, ReleaseToken(i, Works));
  }

  /** How a call that has reserved ends: its limiter, its counter and its cache. */
  predicate Ended(s: State, t: State, i: nat, token: AcquireResult, reply: Reply, sweep: bool) {
    && i < |s.callers| == |t.callers| && t.callers[i].request == s.callers[i].request
    && t.now == s.now && t.remote == s.remote && t.inflight == s.inflight
    && t.callers[i].phase == Leading(Settling(Solo.OutcomeOf(reply)))
    && t.limiter == (if reply == ReplySkipped then Released(s.limiter, token, s.now) else s.limiter)
    && t.counts == (if reply == ReplySkipped then Quota.Added(s.counts, Quota.WindowFor(s.now), -1) else s.counts)
    && t.cache == CacheWith(s.cache, s.callers[i].request, reply, sweep, s.now)
  }

  /** The cache with what a reply brought. */
  function CacheWith(cache: Cache.Entries<CacheKey, int>, r: Request, reply: Reply, sweep: bool, now: int): Cache.Entries<CacheKey, int> {
    if reply.ReplyFetched? && reply.json.Some? && r.useCache && 0 < reply.ttlSeconds then
      var paid := Cache.Stored(cache, sweep, Payload(r.resource), reply.json.value, reply.ttlSeconds, now);
      if r.priority == Live then Cache.Stored(paid, sweep, LastGood(r.resource), reply.json.value, 900, now) else paid
    else cache
  }

  lemma SkippedEnds(s: State, c: Config, i: nat, token: AcquireResult, sweep: bool) returns (steps: seq<Step>, t: State)
    requires At(s, i, Leading(Requesting)) && token.allowed
    requires s.callers[i].token.Held? == !token.failOpen && (s.callers[i].token.Held? ==> s.callers[i].token.minute == token.epochMinute)
    ensures Leads(s, c, i, steps, t) && Ended(s, t, i, token, ReplySkipped, sweep)
  {
    var answered := Next(s, c, Respond(i, ReplySkipped));
    LeadsBy(s, c, i, Respond(i, ReplySkipped));
    ReleaseLeads(answered, c, i, token);
    var released := Next(answered, c, ReleaseToken(i, Works));
    t := Next(released, c, RefundQuota(i, Works));
    LeadsBy(released, c, i, RefundQuota(i, Works));
    LeadsOn(answered, c, i, [ReleaseToken(i, Works)], released, [RefundQuota(i, Works)], t);
    LeadsOn(s, c, i, [Respond(i, ReplySkipped)], answered, [ReleaseToken(i, Works)] + [RefundQuota(i, Works)], t);
    steps := [Respond(i, ReplySkipped)] + ([ReleaseToken(i, Works)] + [RefundQuota(i, Works)]);
  }

  lemma WriteLeads(s: State, c: Config, i: nat, value: int, ttlSeconds: int, sweep: bool) returns (steps: seq<Step>, t: State)
    requires At(s, i, Leading(Writing(value, ttlSeconds)))
    ensures Leads(s, c, i, steps, t) && |t.callers| == |s.callers|
    ensures var r := s.callers[i].request;
            var paid := Cache.Stored(s.cache, sweep, Payload(r.resource), value, ttlSeconds, s.now);
            && t.cache == (if r.priority == Live then Cache.Stored(paid, sweep, LastGood(r.resource), value, 900, s.now) else paid)
            && t.callers[i] == s.callers[i].(phase := Leading(Settling(Fetched)))
            && t == s.(callers := t.callers, cache := t.cache, writes := t.writes)
  {
    t := Next(s, c, WriteCache(i, sweep));
    LeadsBy(s, c, i, WriteCache(i, sweep));
    steps := [WriteCache(i, sweep)];
    if s.callers[i].request.priority == Live {
      var paid := t;
      t := Next(paid, c, WriteLastGood(i, sweep));
      LeadsBy(paid, c, i, WriteLastGood(i, sweep));
      LeadsOn(s, c, i, steps, paid, [WriteLastGood(i, sweep)], t);
      steps := steps + [WriteLastGood(i, sweep)];
    }
  }

  lemma ReplyLeads(s: State, c: Config, i: nat, token: AcquireResult, reply: Reply, sweep: bool) returns (steps: seq<Step>, t: State)
    requires At(s, i, Leading(Requesting)) && token.allowed
    requires s.callers[i].token.Held? == !token.failOpen && (s.callers[i].token.Held? ==> s.callers[i].token.minute == token.epochMinute)
    ensures Leads(s, c, i, steps, t) && Ended(s, t, i, token, reply, sweep)
  {
    if reply == ReplySkipped {
      steps, t := SkippedEnds(s, c, i, token, sweep);
    } else {
      var answered := Next(s, c, Respond(i, reply));
      LeadsBy(s, c, i, Respond(i, reply));
      steps, t := [Respond(i, reply)], answered;
      if reply.ReplyFetched? && reply.json.Some? && s.callers[i].request.useCache && 0 < reply.ttlSeconds {
        var writes: seq<Step>;
        writes, t := WriteLeads(answered, c, i, reply.json.value, reply.ttlSeconds, sweep);
        LeadsOn(s, c, i, steps, answered, writes, t);
        steps := steps + writes;
      }
    }
  }

  // ------------------------------------------------------------ the whole call

  /** What a call leaves behind, by how it ended: a refused or skipped one gives token and reservation back. */
  predicate Leaves(s: State, t: State, r: Request, turn: Solo.MinuteTurn, outcome: Outcome, reply: Reply, counted: Quota.Counts, sweep: bool) {
    && t.remote == s.remote
    && t.limiter == (if outcome == Cached then s.limiter
                     else if outcome in {Denied, Skipped} then Released(turn.after, turn.token, turn.at) else turn.after)
    && t.counts == (if outcome in {Cached, StaleServed, Throttled} then s.counts
                    else if outcome == Skipped then Quota.Added(counted, Quota.WindowFor(turn.at), -1) else counted)
    && t.cache == (if outcome == Fetched then CacheWith(s.cache, r, reply, sweep, turn.at) else s.cache)
  }

  ghost predicate Spent(s: State, t: State, i: nat, c: Config, turn: Solo.MinuteTurn, reply: Reply, sweep: bool) {
    && i < |s.callers| == |t.callers| && t.callers[i].request == s.callers[i].request
    && var r := s.callers[i].request;
       var (counted, check) := Quota.Reserved(c.quota, s.remote, s.counts, 1, Some(r.priority), turn.at);
       var a := Solo.Paid(s.cache, r, turn, check.allowed, reply);
       && t.now == turn.at && t.inflight == s.inflight && t.callers[i].phase == Leading(Settling(a.outcome))
       && Leaves(s, t, r, turn, a.outcome, reply, counted, sweep)
  }

  /** Past the limiter's turn. */
  lemma PaidLeads(s: State, u: State, c: Config, i: nat, turn: Solo.MinuteTurn, reply: Reply, sweep: bool) returns (steps: seq<Step>, t: State)
    requires TurnTaken(s, u, i, turn)
    ensures Leads(u, c, i, steps, t) && Spent(s, t, i, c, turn, reply, sweep)
  {
    if !turn.token.allowed {
      LeadsNowhere(u, c, i);
      return [], u;
    }
    var reserved: State;
    steps, reserved := ReserveLeads(u, c, i);
    var more: seq<Step>;
    if reserved.callers[i].phase == Leading(Requesting) {
      more, t := ReplyLeads(reserved, c, i, turn.token, reply, sweep);
    } else {
      ReleaseLeads(reserved, c, i, turn.token);
      more, t := [ReleaseToken(i, Works)], Next(reserved, c, ReleaseToken(i, Works));
    }
    LeadsOn(u, c, i, steps, reserved, more, t);
    steps := steps + more;
  }

  /** The call has found nothing cached, and holds the claim on its key. */
  predicate Opened(s: State, t: State, i: nat) {
    && i < |s.callers| && t == s.(callers := t.callers, inflight := s.inflight[MergeKeyFor(s.callers[i].request) := i])
    && |t.callers| == |s.callers| && t.callers[i] == s.callers[i].(phase := Leading(Acquiring(false)))
  }

  lemma MissOpens(s: State, c: Config, i: nat) returns (steps: seq<Step>, t: State)
    requires At(s, i, Arrived) && !Hit(s, s.callers[i].request) && MergeKeyFor(s.callers[i].request) !in s.inflight
    ensures Leads(s, c, i, steps, t) && Opened(s, t, i)
  {
    var missed := Next(s, c, ReadCache(i));
    var entered := Next(missed, c, Enter(i));
    t := Next(entered, c, ReadAgain(i));
    LeadsBy(s, c, i, ReadCache(i));
    LeadsBy(missed, c, i, Enter(i));
    LeadsBy(entered, c, i, ReadAgain(i));
    LeadsOn(missed, c, i, [Enter(i)], entered, [ReadAgain(i)], t);
    LeadsOn(s, c, i, [ReadCache(i)], missed, [Enter(i)] + [ReadAgain(i)], t);
    steps := [ReadCache(i)] + ([Enter(i)] + [ReadAgain(i)]);
  }

  lemma SettleEnds(s: State, c: Config, i: nat, before: Flight.InFlight<MergeKey>)
    requires Working(s, i) && s.callers[i].phase.work.Settling?
    requires MergeKeyFor(s.callers[i].request) !in before && s.inflight == before[MergeKeyFor(s.callers[i].request) := i]
    ensures var t := Next(s, c, Settle(i));
            && Leads(s, c, i, [Settle(i)], t) && t == s.(callers := t.callers, inflight := before)
            && |t.callers| == |s.callers| && t.callers[i] == s.callers[i].(phase := Done(s.callers[i].phase.work.outcome))
  {
    LeadsBy(s, c, i, Settle(i));
    assert s.inflight - {MergeKeyFor(s.callers[i].request)} == before;
  }

  /** The call in `t` is over, as one alone answers it, and has left what that leaves. */
  ghost predicate EndsAs(s: State, t: State, i: nat, c: Config, world: Solo.World, sweep: bool) {
    && i < |s.callers| == |t.callers|
    && var r, turn := s.callers[i].request, SoloTurn(s, c, i, world);
       var (counted, check) := Quota.Reserved(c.quota, s.remote, s.counts, 1, Some(r.priority), turn.at);
       var a := Solo.Answered(s.cache, r, s.now, turn, check.allowed, world.reply);
       && t.now == a.at && t.inflight == s.inflight && t.callers[i].phase == Done(a.outcome)
       && Leaves(s, t, r, turn, a.outcome, world.reply, counted, sweep)
  }

  lemma PaidIsNotCached(s: State, c: Config, i: nat, world: Solo.World, turn: Solo.MinuteTurn)
    requires i < |s.callers| && !Hit(s, s.callers[i].request)
    ensures forall allows :: Solo.Answered(s.cache, s.callers[i].request, s.now, turn, allows, world.reply)
                             == Solo.Paid(s.cache, s.callers[i].request, turn, allows, world.reply)
  {}

  lemma MissEnds(s: State, c: Config, i: nat, world: Solo.World, sweep: bool) returns (steps: seq<Step>, t: State)
    requires At(s, i, Arrived) && !Hit(s, s.callers[i].request) && MergeKeyFor(s.callers[i].request) !in s.inflight
    ensures Leads(s, c, i, steps, t) && EndsAs(s, t, i, c, world, sweep)
  {
    var turn := SoloTurn(s, c, i, world);
    var opening, claimed := MissOpens(s, c, i);
    var asking, taken := TurnLeads(claimed, c, i, world);
    var paying, paid := PaidLeads(claimed, taken, c, i, turn, world.reply, sweep);
    SettleEnds(paid, c, i, s.inflight);
    PaidIsNotCached(s, c, i, world, turn);
    t := Next(paid, c, Settle(i));
    LeadsOn(taken, c, i, paying, paid, [Settle(i)], t);
    LeadsOn(claimed, c, i, asking, taken, paying + [Settle(i)], t);
    LeadsOn(s, c, i, opening, claimed, asking + (paying + [Settle(i)]), t);
    steps := opening + (asking + (paying + [Settle(i)]));
  }

  /**
    One caller alone. From any state in which nobody holds its key, a newcomer's own steps and the
    clock end its call with the answer, at the time and at the cost of `fetchWorkload` run alone,
    whatever the limiter's store and the provider do, and leave its key free.
  */
  lemma SoloCallIsFetchWorkload(s: State, c: Config, i: nat, world: Solo.World, sweep: bool) returns (steps: seq<Step>, t: State)
    requires At(s, i, Arrived) && MergeKeyFor(s.callers[i].request) !in s.inflight
    ensures Leads(s, c, i, steps, t) && EndsAs(s, t, i, c, world, sweep)
  {
    if Hit(s, s.callers[i].request) {
      LeadsBy(s, c, i, ReadCache(i));
      steps, t := [ReadCache(i)], Next(s, c, ReadCache(i));
    } else {
      steps, t := MissEnds(s, c, i, world, sweep);
    }
  }

  /** So does the first call a worker ever makes, from the start. */
  lemma FirstCallIsFetchWorkload(now: int, c: Config, request: Request, world: Solo.World, sweep: bool) returns (steps: seq<Step>)
    ensures var s := Init(now).(callers := [Newcomer(request)]);
            && RunOk(Init(now), c, [Arrive(request)] + steps) && Mine(steps, 0)
            && EndsAs(s, Run(Init(now), c, [Arrive(request)] + steps), 0, c, world, sweep)
  {
    var s := Init(now).(callers := [Newcomer(request)]);
    assert Next(Init(now), c, Arrive(request)) == s by {
      assert Init(now).callers + [Newcomer(request)] == [Newcomer(request)];
    }
    var t;
    steps, t := SoloCallIsFetchWorkload(s, c, 0, world, sweep);
    assert ([Arrive(request)] + steps)[1..] == steps;
  }

  /**
    An exception ends the call as rejected and frees its key. What it had counted stays in the counters
    for nobody exactly if its request had not been sent.
  */
  lemma {:induction false} ThrownCallEnds(s: State, c: Config, i: nat)
    requires Working(s, i) && MergeKeyFor(s.callers[i].request) in s.inflight && s.inflight[MergeKeyFor(s.callers[i].request)] == i
    ensures var k, steps := s.callers[i], [Reject(i)] + [Settle(i)];
            RunOk(s, c, steps) &&
            var t := Run(s, c, steps);
            && |t.callers| == |s.callers| && t.callers[i].phase == Done(Rejected) && t.inflight == s.inflight - {MergeKeyFor(k.request)}
            && t.now == s.now && t.cache == s.cache && t.limiter == s.limiter && t.counts == s.counts
            && t.strandedDays == s.strandedDays + (if !k.sent && k.reserved.Some? then 1 else 0)
            && t.strandedMinutes == s.strandedMinutes + (if !k.sent && k.token.Held? then [k.token.minute] else [])
  {
    var thrown := Next(s, c, Reject(i));
    LeadsBy(s, c, i, Reject(i));
    LeadsBy(thrown, c, i, Settle(i));
    LeadsOn(s, c, i, [Reject(i)], thrown, [Settle(i)], Next(thrown, c, Settle(i)));
  }
}
