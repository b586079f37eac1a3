/**
  Viewer count cannot multiply provider calls: in every interleaving, one merged call per
  key and class; and if the callers of a key share a class, one provider request per TTL.
*/
module FetchFlight {
  import opened Common
  import opened MinuteLimiter
  import opened FetchPipeline
  import opened Slips
  import Cache = ProviderCache

  // ------------------------------------------------- one leader per merge key

  /** The singleflight map names exactly the callers that are leading. */
  ghost predicate FlightInv(s: State) {
    && (forall mk :: mk in s.inflight ==> Working(s, s.inflight[mk]) && MergeKeyFor(s.callers[s.inflight[mk]].request) == mk)
    && (forall i :: 0 <= i < |s.callers| && s.callers[i].phase.Leading? ==>
          MergeKeyFor(s.callers[i].request) in s.inflight && s.inflight[MergeKeyFor(s.callers[i].request)] == i)
  }

  /** The steps of `tryAcquire` and `release`. */
  predicate OnMinute(step: Step) {
    step.BeginAcquire? || step.ReadMinute? || step.CountMinute? || step.GiveBackMinute? || step.ReleaseToken?
  }

  /** The steps of `reserve` and `refund`. */
  predicate OnDay(step: Step) { step.CountDay? || step.JudgeDay? || step.GiveBackDay? || step.RefundQuota? }

  /** The caller a step belongs to, while it stays inside its merged call. */
  predicate Internal(step: Step) {
    OnMinute(step) || OnDay(step) || step.ReadAgain? || step.Wake? || step.Respond?
    || step.WriteCache? || step.WriteLastGood? || step.Reject?
  }

  /** One leader moves on inside its call; the map and every other caller stay put. */
  predicate Moved(s: State, t: State, i: nat) {
    && Working(s, i) && Working(t, i) && t.now == s.now && t.inflight == s.inflight && |t.callers| == |s.callers|
    && t.callers == s.callers[i := t.callers[i]] && t.callers[i].request == s.callers[i].request
  }

  /** The leader has passed its second cache read and not yet written. */
  predicate PastRecheck(w: Work) { !w.Recheck? && !w.WritingLastGood? && !w.Settling? }

  /** And it leaves the cache and the write log alone, neither back before its re-check nor at the write. */
  predicate MovedQuietly(s: State, t: State, i: nat) {
    && Moved(s, t, i) && t.cache == s.cache && t.writes == s.writes
    && !t.callers[i].phase.work.Recheck? && !t.callers[i].phase.work.Writing?
  }

  /** What the counters and their bookkeeping hold makes no difference here. */
  predicate SameCallers(s: State, t: State) {
    t.now == s.now && t.callers == s.callers && t.inflight == s.inflight && t.cache == s.cache && t.writes == s.writes
  }

  lemma AnsweredMoves(s: State, base: State, i: nat, retry: bool, r: AcquireResult, token: Token)
    requires Working(s, i) && SameCallers(s, base)
    ensures MovedQuietly(s, WithAnswer(base, i, retry, r, token), i)
  {}

  lemma ThrownMoves(s: State, base: State, i: nat)
    requires Working(s, i) && (SameCallers(s, base) || SameCallers(Put(s, i, s.callers[i].(reserved := None)), base))
    ensures MovedQuietly(s, Thrown(base, i), i)
  {
    assert s.callers[i := s.callers[i].(reserved := None)][i := Thrown(base, i).callers[i]] == s.callers[i := Thrown(base, i).callers[i]];
  }

  lemma AcquireBegunMoves(s: State, c: Config, i: nat)
    requires Working(s, i) && s.callers[i].phase.work.Acquiring?
    ensures MovedQuietly(s, AcquireBegun(s, c, i), i)
  {
    var p := s.callers[i].request.priority;
    AnsweredMoves(s, s, i, s.callers[i].phase.work.retry, HeaderDenied(p, s.now, c.caps.Of(p)), NoToken);
  }

  lemma PolicyMoves(s: State, base: State, c: Config, i: nat, retry: bool, at: int)
    requires Working(s, i) && SameCallers(s, base)
    ensures MovedQuietly(s, AnsweredByPolicy(base, c, i, retry, at), i)
  {
    var p := s.callers[i].request.priority;
    AnsweredMoves(s, base, i, retry, FailPolicy(p, at, c.caps.Of(p)), FailOpen);
  }

  lemma MinuteReadMoves(s: State, c: Config, i: nat, throws: bool)
    requires Working(s, i) && s.callers[i].phase.work.Reading?
    ensures MovedQuietly(s, MinuteRead(s, c, i, throws), i)
  {
    PolicyMoves(s, s, c, i, s.callers[i].phase.work.retry, s.callers[i].phase.work.at);
  }

  lemma MinuteJudgedMoves(s: State, base: State, c: Config, i: nat, w: Work, total: int, token: Token)
    requires Working(s, i) && SameCallers(s, base) && w.Counting?
    ensures MovedQuietly(s, MinuteJudged(base, c, i, w, total, token), i)
  {
    var p := s.callers[i].request.priority;
    AnsweredMoves(s, base, i, w.retry, Admitted(p, w.at, c.caps.Of(p), w.previous, total), token);
  }

  lemma MinuteCountedMoves(s: State, c: Config, i: nat, fault: Fault)
    requires Working(s, i) && s.callers[i].phase.work.Counting?
    ensures MovedQuietly(s, MinuteCounted(s, c, i, fault), i)
  {
    var w := s.callers[i].phase.work;
    var m := Minute(w.at);
    var after := BucketAfter(s, m, 1, fault);
    match fault
    case Throws(landed) => PolicyMoves(s, if landed then StrandMinute(after, m) else after, c, i, w.retry, w.at);
    case Works => MinuteTakenMoves(s, after.(orders := s.orders + 1), c, i, ReadBucket(after.limiter.buckets, m, s.now));
  }

  lemma MinuteTakenMoves(s: State, base: State, c: Config, i: nat, total: int)
    requires Working(s, i) && s.callers[i].phase.work.Counting? && SameCallers(s, base)
    ensures var w := s.callers[i].phase.work;
            MovedQuietly(s, MinuteJudged(base, c, i, w, total, Held(Minute(w.at), Slip(s.orders, total), s.now < (Minute(w.at) + 2) * MINUTE_MS)), i)
  {
    var w := s.callers[i].phase.work;
    MinuteJudgedMoves(s, base, c, i, w, total, Held(Minute(w.at), Slip(s.orders, total), s.now < (Minute(w.at) + 2) * MINUTE_MS));
  }

  lemma MinuteGivenBackMoves(s: State, c: Config, i: nat, fault: Fault)
    requires Working(s, i) && s.callers[i].phase.work.GivingBack?
    ensures MovedQuietly(s, MinuteGivenBack(s, c, i, fault), i)
  {
    var p, w := s.callers[i].request.priority, s.callers[i].phase.work;
    var m, after := Minute(w.at), BucketAfter(s, Minute(w.at), -1, fault);
    match fault
    case Throws(landed) => PolicyMoves(s, if landed then after else StrandMinute(after, m), c, i, w.retry, w.at);
    case Works => AnsweredMoves(s, after, i, w.retry, CapDenied(p, w.at, c.caps.Of(p), w.previous, w.total), NoToken);
  }

  lemma TokenReleasedMoves(s: State, i: nat, fault: Fault)
    requires Working(s, i) && s.callers[i].phase.work.Releasing?
    ensures MovedQuietly(s, TokenReleased(s, i, fault), i)
  {}

  lemma MinuteStepMoves(s: State, c: Config, step: Step)
    requires OnMinute(step)
    requires Enabled(s, step)
    ensures MovedQuietly(s, Next(s, c, step), step.caller)
  {
    match step
    case BeginAcquire(i) => AcquireBegunMoves(s, c, i);
    case ReadMinute(i, throws) => MinuteReadMoves(s, c, i, throws);
    case CountMinute(i, fault) => MinuteCountedMoves(s, c, i, fault);
    case GiveBackMinute(i, fault) => MinuteGivenBackMoves(s, c, i, fault);
    case ReleaseToken(i, fault) => TokenReleasedMoves(s, i, fault);
  }

  lemma DayCountedMoves(s: State, i: nat, fault: Fault)
    requires At(s, i, Leading(Reserving))
    ensures MovedQuietly(s, DayCounted(s, i, fault), i)
  {
    var after := DayAfter(s, Quota.WindowFor(s.now), 1, fault);
    match fault
    case Throws(landed) => ThrownMoves(s, if landed then after.(strandedDays := s.strandedDays + 1) else after, i);
    case Works =>
  }

  lemma DayGivenBackMoves(s: State, after: State, i: nat, fault: Fault, next: Work)
    requires Working(s, i) && SameCallers(s, after) && !next.Recheck? && !next.Writing?
    ensures MovedQuietly(s, DayGivenBack(after, i, fault, next), i)
  {
    match fault
    case Throws(landed) => ThrownMoves(s, if landed then Put(after, i, after.callers[i].(reserved := None)) else after, i);
    case Works =>
  }

  lemma DayStepMoves(s: State, c: Config, step: Step)
    requires OnDay(step)
    requires Enabled(s, step)
    ensures MovedQuietly(s, Next(s, c, step), step.caller)
  {
    match step
    case CountDay(i, fault) => DayCountedMoves(s, i, fault);
    case JudgeDay(i) =>
    case GiveBackDay(i, fault) =>
      DayGivenBackMoves(s, DayAfter(s, s.callers[i].phase.work.window, -1, fault), i, fault, Releasing(Denied));
    case RefundQuota(i, fault) =>
      DayGivenBackMoves(s, DayAfter(s, Quota.WindowFor(s.now), -1, fault), i, fault, Settling(Skipped));
  }

  /** A step inside a merged call that writes nothing; only a re-check that misses gets past the re-check. */
  predicate MovedInside(s: State, t: State, step: Step)
    requires Internal(step)
  {
    && Moved(s, t, step.caller) && t.cache == s.cache && t.writes == s.writes
    && (t.callers[step.caller].phase.work.Writing? ==> s.callers[step.caller].request.useCache)
    && (PastRecheck(t.callers[step.caller].phase.work) ==> step.ReadAgain? || PastRecheck(s.callers[step.caller].phase.work))
  }

  /** Every step that writes neither payloads nor their last-good copies. */
  predicate Quiet(step: Step) {
    !step.WriteCache? && !step.WriteLastGood?
  }

  lemma RestMoves(s: State, c: Config, step: Step)
    requires step.ReadAgain? || step.Wake? || step.Respond?
    requires Enabled(s, step)
    ensures MovedInside(s, Next(s, c, step), step)
  {}

  lemma InternalQuiet(s: State, c: Config, step: Step)
    requires Internal(step) && Quiet(step)
    requires Enabled(s, step)
    ensures MovedInside(s, Next(s, c, step), step)
  {
    if OnMinute(step) {
      MinuteStepMoves(s, c, step);
    } else if OnDay(step) {
      DayStepMoves(s, c, step);
    } else if step.Reject? {
      ThrownMoves(s, s, step.caller);
    } else {
      RestMoves(s, c, step);
    }
  }

  lemma WritesMove(s: State, c: Config, step: Step)
    requires step.WriteCache? || step.WriteLastGood?
    requires Enabled(s, step)
    ensures Moved(s, Next(s, c, step), step.caller)
  {}

  lemma InternalMoves(s: State, c: Config, step: Step)
    requires Internal(step)
    requires Enabled(s, step)
    ensures Moved(s, Next(s, c, step), step.caller)
  {
    if Quiet(step) {
      InternalQuiet(s, c, step);
    } else {
      WritesMove(s, c, step);
    }
  }

  lemma MovedKeepsFlight(s: State, t: State, i: nat)
    requires FlightInv(s) && Moved(s, t, i)
    ensures FlightInv(t)
  {}

  lemma ClearedKeepsFlight(s: State, i: nat, outcome: Outcome)
    requires FlightInv(s) && Working(s, i)
    ensures FlightInv(Cleared(s, i, outcome))
  {
    var t := Cleared(s, i, outcome);
    var key := MergeKeyFor(s.callers[i].request);
    assert s.inflight[key] == i;
    forall mk | mk in t.inflight
      ensures Working(t, t.inflight[mk]) && MergeKeyFor(t.callers[t.inflight[mk]].request) == mk
    {
      assert mk in s.inflight && mk != key;
    }
  }

  lemma EnterKeepsFlight(s: State, c: Config, i: nat)
    requires FlightInv(s) && Enabled(s, Enter(i))
    ensures FlightInv(Next(s, c, Enter(i)))
  {}

  lemma StepKeepsFlight(s: State, c: Config, step: Step)
    requires FlightInv(s) && Enabled(s, step)
    ensures FlightInv(Next(s, c, step))
  {
    if Internal(step) {
      InternalMoves(s, c, step);
      MovedKeepsFlight(s, Next(s, c, step), step.caller);
    } else if step.Settle? {
      ClearedKeepsFlight(s, step.caller, s.callers[step.caller].phase.work.outcome);
    } else if step.Enter? {
      EnterKeepsFlight(s, c, step.caller);
    } else {
      OutsideKeepsFlight(s, c, step);
    }
  }

  /** Time, arrivals, headers, first cache reads and resolved followers do not touch the map. */
  lemma OutsideKeepsFlight(s: State, c: Config, step: Step)
    requires FlightInv(s) && Enabled(s, step)
    requires step.Tick? || step.Arrive? || step.ReadCache? || step.ObserveHeaders? || step.Resolve?
    ensures FlightInv(Next(s, c, step))
  {}

  lemma {:induction false} RunKeepsFlight(s: State, c: Config, steps: seq<Step>)
    requires FlightInv(s) && RunOk(s, c, steps)
    ensures FlightInv(Run(s, c, steps))
    decreases |steps|
  {
    if |steps| > 0 {
      StepKeepsFlight(s, c, steps[0]);
      RunKeepsFlight(Next(s, c, steps[0]), c, steps[1..]);
    }
  }

  /** At most one provider request is in flight per key and class, however many callers there are. */
  lemma {:induction false} OneRequestPerMergeKey(now: int, c: Config, steps: seq<Step>, i: nat, j: nat)
    requires RunOk(Init(now), c, steps)
    requires var s := Run(Init(now), c, steps);
             && At(s, i, Leading(Requesting)) && At(s, j, Leading(Requesting))
             && MergeKeyFor(s.callers[i].request) == MergeKeyFor(s.callers[j].request)
    ensures i == j
  {
    RunKeepsFlight(Init(now), c, steps);
  }

  /** Callers that joined a merged call follow one with their own key; they are answered once it is over, and not before. */
  ghost predicate FollowsOk(s: State, i: nat)
    requires i < |s.callers|
  {
    match s.callers[i].phase
    case Following(l) =>
      l < |s.callers| && MergeKeyFor(s.callers[l].request) == MergeKeyFor(s.callers[i].request) && (s.callers[l].phase.Leading? || s.callers[l].phase.Done?)
    case Shared(l) => l < |s.callers| && MergeKeyFor(s.callers[l].request) == MergeKeyFor(s.callers[i].request) && s.callers[l].phase.Done?
    case _ => true
  }

  ghost predicate AllFollow(s: State) { forall i :: 0 <= i < |s.callers| ==> FollowsOk(s, i) }

  /** One caller moved, and neither a leader nor a finished call became anything else. */
  ghost predicate OneMoved(s: State, t: State, j: nat) {
    && j < |s.callers| == |t.callers| && t.callers == s.callers[j := t.callers[j]] && t.callers[j].request == s.callers[j].request
    && (s.callers[j].phase.Leading? ==> t.callers[j].phase.Leading? || t.callers[j].phase.Done?)
    && !s.callers[j].phase.Done?
  }

  lemma MovedFollow(s: State, t: State, j: nat)
    requires AllFollow(s) && OneMoved(s, t, j) && FollowsOk(t, j)
    ensures AllFollow(t)
  {
    forall i | 0 <= i < |t.callers|
      ensures FollowsOk(t, i)
    {
      assert FollowsOk(s, i);
    }
  }

  lemma EnterFollows(s: State, c: Config, j: nat)
    requires AllFollow(s) && FlightInv(s) && Enabled(s, Enter(j))
    ensures AllFollow(Next(s, c, Enter(j)))
  {
    MovedFollow(s, Next(s, c, Enter(j)), j);
  }

  lemma RestFollows(s: State, c: Config, step: Step)
    requires AllFollow(s) && Enabled(s, step) && (step.ReadCache? || step.Resolve? || step.Settle?)
    ensures AllFollow(Next(s, c, step))
  {
    assert FollowsOk(s, step.caller);
    MovedFollow(s, Next(s, c, step), step.caller);
  }

  lemma ArriveFollows(s: State, c: Config, r: Request)
    requires AllFollow(s)
    ensures AllFollow(Next(s, c, Arrive(r)))
  {
    var t := Next(s, c, Arrive(r));
    forall i | 0 <= i < |t.callers|
      ensures FollowsOk(t, i)
    {
      assert i < |s.callers| ==> FollowsOk(s, i);
    }
  }

  lemma SameCallersFollow(s: State, t: State)
    requires AllFollow(s) && t.callers == s.callers
    ensures AllFollow(t)
  {
    forall i | 0 <= i < |t.callers|
      ensures FollowsOk(t, i)
    {
      assert FollowsOk(s, i);
    }
  }

  lemma StepKeepsFollow(s: State, c: Config, step: Step)
    requires AllFollow(s) && FlightInv(s) && Enabled(s, step)
    ensures AllFollow(Next(s, c, step))
  {
    if Internal(step) {
      InternalMoves(s, c, step);
      MovedFollow(s, Next(s, c, step), step.caller);
    } else if step.Enter? {
      EnterFollows(s, c, step.caller);
    } else if step.Arrive? {
      ArriveFollows(s, c, step.request);
    } else if step.Tick? || step.ObserveHeaders? {
      SameCallersFollow(s, Next(s, c, step));
    } else {
      RestFollows(s, c, step);
    }
  }

  lemma {:induction false} RunKeepsFollow(s: State, c: Config, steps: seq<Step>)
    requires AllFollow(s) && FlightInv(s) && RunOk(s, c, steps)
    ensures AllFollow(Run(s, c, steps))
    decreases |steps|
  {
    if |steps| > 0 {
      StepKeepsFollow(s, c, steps[0]);
      StepKeepsFlight(s, c, steps[0]);
      RunKeepsFollow(Next(s, c, steps[0]), c, steps[1..]);
    }
  }

  /**
    In every interleaving, a caller that joined a merged call is answered only with that of a caller of
    its own class and resource, and only once that one is over; until then that one is at work or over.
  */
  lemma {:induction false} FollowersShareTheirOwn(now: int, c: Config, steps: seq<Step>, i: nat)
    requires RunOk(Init(now), c, steps) && i < |Run(Init(now), c, steps).callers|
    ensures FollowsOk(Run(Init(now), c, steps), i)
  {
    RunKeepsFollow(Init(now), c, steps);
  }

  // ------------------------------------------------- one request per TTL

  /** Every caller of a resource asks at the same class. */
  predicate OneClass(steps: seq<Step>, classOf: map<string, Priority>) {
    forall k :: 0 <= k < |steps| && steps[k].Arrive? ==>
      steps[k].request.resource in classOf && classOf[steps[k].request.resource] == steps[k].request.priority
  }

  ghost predicate ClassesOk(s: State, classOf: map<string, Priority>) {
    forall i :: 0 <= i < |s.callers| ==>
      s.callers[i].request.resource in classOf && classOf[s.callers[i].request.resource] == s.callers[i].request.priority
  }

  function Deadline(w: Write): int { w.at + w.ttlSeconds * 1_000 }

  /** Until a payload's deadline, readers of its key find something. */
  ghost predicate CacheHoldsWrites(s: State) {
    forall k :: 0 <= k < |s.writes| ==>
      forall t :: s.now <= t < Deadline(s.writes[k]) ==> Cache.Lookup(s.cache, s.writes[k].key, t).Some?
  }

  ghost predicate LeaderIsAlone(s: State, i: nat)
    requires i < |s.callers|
  {
    s.callers[i].phase.Leading? && PastRecheck(s.callers[i].phase.work) && s.callers[i].request.useCache ==>
      forall k :: 0 <= k < |s.writes| && s.writes[k].key == Payload(s.callers[i].request.resource) ==> Deadline(s.writes[k]) <= s.now
  }

  ghost predicate Spaced(writes: seq<Write>) {
    forall k, l :: 0 <= k < l < |writes| && writes[k].key == writes[l].key ==> Deadline(writes[k]) <= writes[l].at
  }

  /** Only a caller that uses the cache ever reaches the write. */
  ghost predicate WritersUseCache(s: State) {
    forall i :: 0 <= i < |s.callers| && s.callers[i].phase.Leading? && s.callers[i].phase.work.Writing? ==> s.callers[i].request.useCache
  }

  ghost predicate SpacingInv(s: State, classOf: map<string, Priority>) {
    && FlightInv(s)
    && ClassesOk(s, classOf)
    && CacheHoldsWrites(s)
    && WritersUseCache(s)
    && (forall i :: 0 <= i < |s.callers| ==> LeaderIsAlone(s, i))
    && Spaced(s.writes)
  }

  /** Two leaders of one resource would share a merge key, so there is only one. */
  lemma OneLeaderPerResource(s: State, classOf: map<string, Priority>, i: nat, j: nat)
    requires FlightInv(s) && ClassesOk(s, classOf) && Working(s, i) && Working(s, j)
    requires s.callers[i].request.resource == s.callers[j].request.resource
    ensures i == j
  {
    assert MergeKeyFor(s.callers[i].request) == MergeKeyFor(s.callers[j].request);
  }

  lemma WriteKeepsSpacing(s: State, c: Config, classOf: map<string, Priority>, i: nat, sweep: bool)
    requires SpacingInv(s, classOf) && Enabled(s, WriteCache(i, sweep))
    ensures SpacingInv(Next(s, c, WriteCache(i, sweep)), classOf)
  {
    var t := Next(s, c, WriteCache(i, sweep));
    StepKeepsFlight(s, c, WriteCache(i, sweep));
    var w := s.callers[i].phase.work;
    var key := Payload(s.callers[i].request.resource);
    assert LeaderIsAlone(s, i);
    forall k, u | 0 <= k < |t.writes| && t.now <= u < Deadline(t.writes[k])
      ensures Cache.Lookup(t.cache, t.writes[k].key, u).Some?
    {
      Cache.LookupStored(s.cache, sweep, key, w.value, w.ttlSeconds, s.now, t.writes[k].key, u);
    }
    forall j | 0 <= j < |t.callers|
      ensures LeaderIsAlone(t, j)
    {
      assert LeaderIsAlone(s, j);
      if j != i && s.callers[j].phase.Leading? && s.callers[j].request.resource == s.callers[i].request.resource {
        OneLeaderPerResource(s, classOf, i, j);
      }
    }
  }

  lemma LastGoodKeepsSpacing(s: State, c: Config, classOf: map<string, Priority>, i: nat, sweep: bool)
    requires SpacingInv(s, classOf) && Enabled(s, WriteLastGood(i, sweep))
    requires forall k :: 0 <= k < |s.writes| ==> s.writes[k].key.Payload?
    ensures SpacingInv(Next(s, c, WriteLastGood(i, sweep)), classOf)
  {
    var t := Next(s, c, WriteLastGood(i, sweep));
    StepKeepsFlight(s, c, WriteLastGood(i, sweep));
    var w := s.callers[i].phase.work;
    forall k, u | 0 <= k < |t.writes| && t.now <= u < Deadline(t.writes[k])
      ensures Cache.Lookup(t.cache, t.writes[k].key, u).Some?
    {
      Cache.LookupStored(s.cache, sweep, LastGood(s.callers[i].request.resource), w.value, LAST_GOOD_TTL_SECONDS, s.now, t.writes[k].key, u);
    }
    OthersAlone(s, t, i);
  }

  /** Steps that leave the write log alone and do not put a caller past its re-check. */
  lemma OthersAlone(s: State, t: State, i: nat)
    requires forall j :: 0 <= j < |s.callers| ==> LeaderIsAlone(s, j)
    requires s.writes == t.writes && s.now <= t.now && |t.callers| == |s.callers| && i < |s.callers|
    requires forall j :: 0 <= j < |s.callers| && j != i ==> t.callers[j] == s.callers[j]
    requires LeaderIsAlone(t, i)
    ensures forall j :: 0 <= j < |t.callers| ==> LeaderIsAlone(t, j)
  {
    forall j | 0 <= j < |t.callers|
      ensures LeaderIsAlone(t, j)
    {
      assert LeaderIsAlone(s, j);
    }
  }

  /** A re-check that misses means every earlier payload of the key has expired. */
  lemma RecheckMissMeansExpired(s: State, classOf: map<string, Priority>, i: nat)
    requires SpacingInv(s, classOf) && At(s, i, Leading(Recheck)) && !Hit(s, s.callers[i].request)
    ensures LeaderIsAlone(WithWork(s, i, Acquiring(false)), i)
  {
    forall k | 0 <= k < |s.writes| && s.writes[k].key == Payload(s.callers[i].request.resource) && s.callers[i].request.useCache
      ensures Deadline(s.writes[k]) <= s.now
    {
    }
  }

  ghost predicate PayloadWrites(s: State) {
    forall k :: 0 <= k < |s.writes| ==> s.writes[k].key.Payload?
  }

  lemma InsideKeepsSpacing(s: State, t: State, classOf: map<string, Priority>, step: Step)
    requires Internal(step)
    requires SpacingInv(s, classOf) && FlightInv(t) && MovedInside(s, t, step)
    requires step.ReadAgain? ==> LeaderIsAlone(t, step.caller)
    ensures SpacingInv(t, classOf)
  {
    assert LeaderIsAlone(s, step.caller);
    OthersAlone(s, t, step.caller);
  }

  lemma ReadAgainIsAlone(s: State, c: Config, classOf: map<string, Priority>, i: nat)
    requires SpacingInv(s, classOf) && Enabled(s, ReadAgain(i))
    ensures LeaderIsAlone(Next(s, c, ReadAgain(i)), i)
  {
    if !Hit(s, s.callers[i].request) {
      RecheckMissMeansExpired(s, classOf, i);
    }
  }

  lemma InternalKeepsSpacing(s: State, c: Config, classOf: map<string, Priority>, step: Step)
    requires Internal(step) && Quiet(step)
    requires SpacingInv(s, classOf) && Enabled(s, step)
    ensures SpacingInv(Next(s, c, step), classOf)
  {
    InternalQuiet(s, c, step);
    MovedKeepsFlight(s, Next(s, c, step), step.caller);
    if step.ReadAgain? {
      ReadAgainIsAlone(s, c, classOf, step.caller);
    }
    InsideKeepsSpacing(s, Next(s, c, step), classOf, step);
  }

  /** Steps outside a merged call write nothing, and put no leader past its re-check. */
  lemma OutsideQuiet(s: State, c: Config, step: Step)
    requires Enabled(s, step) && !Internal(step)
    ensures var t := Next(s, c, step);
            && t.cache == s.cache && t.writes == s.writes && s.now <= t.now && |s.callers| <= |t.callers|
            && (forall j :: 0 <= j < |s.callers| ==> t.callers[j].request == s.callers[j].request)
            && (forall j :: 0 <= j < |s.callers| ==> t.callers[j].phase == s.callers[j].phase || !t.callers[j].phase.Leading? || t.callers[j].phase.work == Recheck)
            && (forall j :: |s.callers| <= j < |t.callers| ==> step.Arrive? && t.callers[j].request == step.request && t.callers[j].phase == Arrived)
  {}

  lemma OutsideKeepsSpacing(s: State, c: Config, classOf: map<string, Priority>, step: Step)
    requires SpacingInv(s, classOf) && Enabled(s, step) && OneClass([step], classOf) && !Internal(step)
    ensures SpacingInv(Next(s, c, step), classOf) && Next(s, c, step).writes == s.writes
  {
    var t := Next(s, c, step);
    StepKeepsFlight(s, c, step);
    OutsideQuiet(s, c, step);
    assert step.Arrive? ==> [step][0].request == step.request;
    forall j | 0 <= j < |t.callers|
      ensures LeaderIsAlone(t, j)
    {
      if j < |s.callers| {
        assert LeaderIsAlone(s, j);
      }
    }
  }

  lemma StepKeepsSpacing(s: State, c: Config, classOf: map<string, Priority>, step: Step)
    requires SpacingInv(s, classOf) && PayloadWrites(s) && Enabled(s, step) && OneClass([step], classOf)
    ensures SpacingInv(Next(s, c, step), classOf) && PayloadWrites(Next(s, c, step))
  {
    if step.WriteCache? {
      WriteKeepsSpacing(s, c, classOf, step.caller, step.sweep);
    } else if step.WriteLastGood? {
      LastGoodKeepsSpacing(s, c, classOf, step.caller, step.sweep);
    } else if Internal(step) {
      InternalKeepsSpacing(s, c, classOf, step);
      InternalQuiet(s, c, step);
    } else {
      OutsideKeepsSpacing(s, c, classOf, step);
    }
  }

  lemma {:induction false} RunKeepsSpacing(s: State, c: Config, classOf: map<string, Priority>, steps: seq<Step>)
    requires SpacingInv(s, classOf) && PayloadWrites(s) && RunOk(s, c, steps) && OneClass(steps, classOf)
    ensures SpacingInv(Run(s, c, steps), classOf)
    decreases |steps|
  {
    if |steps| > 0 {
      assert OneClass([steps[0]], classOf) by {
        assert [steps[0]][0] == steps[0];
      }
      StepKeepsSpacing(s, c, classOf, steps[0]);
      assert OneClass(steps[1..], classOf) by {
        forall k | 0 <= k < |steps[1..]| && steps[1..][k].Arrive?
          ensures steps[1..][k].request.resource in classOf && classOf[steps[1..][k].request.resource] == steps[1..][k].request.priority
        {
          assert steps[1..][k] == steps[k + 1];
        }
      }
      RunKeepsSpacing(Next(s, c, steps[0]), c, classOf, steps[1..]);
    }
  }

  /**
    If all callers of a resource share one class, at most one provider request is in flight
    for it, and a payload is only written again once the one before has reached its deadline.
  */
  lemma {:induction false} OneRequestPerTtl(now: int, c: Config, classOf: map<string, Priority>, steps: seq<Step>)
    requires RunOk(Init(now), c, steps) && OneClass(steps, classOf)
    ensures var s := Run(Init(now), c, steps);
            && (forall i: nat, j: nat | At(s, i, Leading(Requesting)) && At(s, j, Leading(Requesting)) ::
                  s.callers[i].request.resource == s.callers[j].request.resource ==> i == j)
            && (forall k, l :: 0 <= k < l < |s.writes| && s.writes[k].key == s.writes[l].key ==>
                  s.writes[k].at + s.writes[k].ttlSeconds * 1_000 <= s.writes[l].at)
  {
    RunKeepsSpacing(Init(now), c, classOf, steps);
    var s := Run(Init(now), c, steps);
    forall i: nat, j: nat | At(s, i, Leading(Requesting)) && At(s, j, Leading(Requesting))
                  && s.callers[i].request.resource == s.callers[j].request.resource
      ensures i == j
    {
      OneLeaderPerResource(s, classOf, i, j);
    }
  }

  // ----------------------------------------------------------- the re-check

  /** The latest write of a payload. */
  function LastWrite(writes: seq<Write>, key: CacheKey): Option<Write> {
    if |writes| == 0 then None
    else if writes[|writes| - 1].key == key then Some(writes[|writes| - 1])
    else LastWrite(writes[..|writes| - 1], key)
  }

  predicate Unexpired(writes: seq<Write>, key: CacheKey, t: int) {
    LastWrite(writes, key).Some? && t < Deadline(LastWrite(writes, key).value)
  }

  /** From now on readers of a payload find something exactly until its latest write's deadline. */
  ghost predicate CacheIsLatest(s: State) {
    forall key: CacheKey, t :: key.Payload? && s.now <= t ==> (Cache.Lookup(s.cache, key, t).Some? <==> Unexpired(s.writes, key, t))
  }

  lemma WriteKeepsLatest(s: State, c: Config, i: nat, sweep: bool)
    requires CacheIsLatest(s) && Enabled(s, WriteCache(i, sweep))
    ensures CacheIsLatest(Next(s, c, WriteCache(i, sweep)))
  {
    var t := Next(s, c, WriteCache(i, sweep));
    var key, w := Payload(s.callers[i].request.resource), s.callers[i].phase.work;
    assert t.writes[..|t.writes| - 1] == s.writes;
    forall k: CacheKey, u | k.Payload? && t.now <= u
      ensures Cache.Lookup(t.cache, k, u).Some? <==> Unexpired(t.writes, k, u)
    {
      Cache.LookupStored(s.cache, sweep, key, w.value, w.ttlSeconds, s.now, k, u);
    }
  }

  lemma LastGoodKeepsLatest(s: State, c: Config, i: nat, sweep: bool)
    requires CacheIsLatest(s) && Enabled(s, WriteLastGood(i, sweep))
    ensures CacheIsLatest(Next(s, c, WriteLastGood(i, sweep)))
  {
    var t := Next(s, c, WriteLastGood(i, sweep));
    var w := s.callers[i].phase.work;
    forall k: CacheKey, u | k.Payload? && t.now <= u
      ensures Cache.Lookup(t.cache, k, u).Some? <==> Unexpired(t.writes, k, u)
    {
      Cache.LookupStored(s.cache, sweep, LastGood(s.callers[i].request.resource), w.value, LAST_GOOD_TTL_SECONDS, s.now, k, u);
    }
  }

  lemma StepKeepsLatest(s: State, c: Config, step: Step)
    requires CacheIsLatest(s) && Enabled(s, step)
    ensures CacheIsLatest(Next(s, c, step))
  {
    if step.WriteCache? {
      WriteKeepsLatest(s, c, step.caller, step.sweep);
    } else if step.WriteLastGood? {
      LastGoodKeepsLatest(s, c, step.caller, step.sweep);
    } else if Internal(step) {
      InternalMoves(s, c, step);
      InternalQuiet(s, c, step);
    } else {
      OutsideQuiet(s, c, step);
    }
  }

  lemma {:induction false} RunKeepsLatest(s: State, c: Config, steps: seq<Step>)
    requires CacheIsLatest(s) && RunOk(s, c, steps)
    ensures CacheIsLatest(Run(s, c, steps))
    decreases |steps|
  {
    if |steps| > 0 {
      StepKeepsLatest(s, c, steps[0]);
      RunKeepsLatest(Next(s, c, steps[0]), c, steps[1..]);
    }
  }

  /**
    A leader that missed the cache before another's write finds the payload on its re-check
    exactly until the latest write's deadline, whatever classes wrote and asked.
  */
  lemma {:induction false} RecheckFindsWrite(now: int, c: Config, steps: seq<Step>, i: nat)
    requires RunOk(Init(now), c, steps)
    requires var s := Run(Init(now), c, steps); At(s, i, Leading(Recheck)) && s.callers[i].request.useCache
    ensures var s := Run(Init(now), c, steps);
            At(Next(s, c, ReadAgain(i)), i, Leading(Settling(Cached))) <==> Unexpired(s.writes, Payload(s.callers[i].request.resource), s.now)
  {
    RunKeepsLatest(Init(now), c, steps);
    var s := Run(Init(now), c, steps);
    var key := Payload(s.callers[i].request.resource);
    assert Cache.Lookup(s.cache, key, s.now).Some? <==> Unexpired(s.writes, key, s.now);
  }
}
