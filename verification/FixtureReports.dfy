/**
  What the worker's reports about a fixture make of it (src/worker/ingestion.ts): from the last
  status and kickoff reported, over any upserts and sweeps that follow, to the list that polls it and
  the sweep that drops it. Everything is stated on statuses, kickoffs and times.
*/
module FixtureReports {
  import opened Common
  import opened FixtureRouting

  /** What a report of a fixture says: a status of this kind, or none; for a scheduled one this kickoff, or none. */
  predicate Agrees(r: Discovered, kind: StatusKind, kickoff: Option<int>) {
    && (r.status == "" || IsKind(r.status, kind))
    && (kind == Scheduled ==> r.kickoffMs.None? || r.kickoffMs == kickoff)
  }

  ghost predicate BatchAgrees(records: seq<Discovered>, id: string, kind: StatusKind, kickoff: Option<int>) {
    forall j :: 0 <= j < |records| && Trim(records[j].id) == id ==> Agrees(records[j], kind, kickoff)
  }

  ghost predicate EventsAgree(events: seq<Event>, id: string, kind: StatusKind, kickoff: Option<int>) {
    forall k :: 0 <= k < |events| && events[k].Upsert? ==> BatchAgrees(events[k].records, id, kind, kickoff)
  }

  /** The worker tracks the fixture with a status of this kind, and a scheduled one with this kickoff. */
  ghost predicate Tracks(t: Tracker, id: string, kind: StatusKind, kickoff: Option<int>) {
    && TrackerOk(t) && id in t.ids && id in t.lifecycle
    && IsKind(t.lifecycle[id].status, kind) && (kind == Scheduled ==> t.lifecycle[id].kickoffMs == kickoff)
  }

  lemma OneMoreAgrees(t: Tracker, r: Discovered, now: int, id: string, kind: StatusKind, kickoff: Option<int>)
    requires Tracks(t, id, kind, kickoff) && (Trim(r.id) == id ==> Agrees(r, kind, kickoff))
    ensures Tracks(UpsertOne(t, r, now), id, kind, kickoff)
  {}

  lemma {:induction false} BatchKeepsTracks(t: Tracker, records: seq<Discovered>, now: int, id: string, kind: StatusKind, kickoff: Option<int>)
    requires Tracks(t, id, kind, kickoff) && BatchAgrees(records, id, kind, kickoff)
    ensures Tracks(Upserted(t, records, now), id, kind, kickoff)
  {
    if |records| > 0 {
      var front := records[..|records| - 1];
      BatchKeepsTracks(t, front, now, id, kind, kickoff);
      OneMoreAgrees(Upserted(t, front, now), records[|records| - 1], now, id, kind, kickoff);
    }
  }

  /** The record reports the fixture with a status of this kind, and a scheduled one with this kickoff. */
  predicate Reports(r: Discovered, id: string, kind: StatusKind, kickoff: Option<int>) {
    && Trim(r.id) == id && id != "" && r.status != "" && IsKind(r.status, kind)
    && (kind == Scheduled ==> kickoff.Some? && r.kickoffMs == kickoff)
  }

  lemma OneReports(t: Tracker, r: Discovered, now: int, id: string, kind: StatusKind, kickoff: Option<int>)
    requires TrackerOk(t) && Reports(r, id, kind, kickoff)
    ensures Tracks(UpsertOne(t, r, now), id, kind, kickoff)
  {
    var u := UpsertOne(t, r, now);
    assert u.lifecycle[id].status == r.status;
  }

  /** The last report of a batch that names a status decides, whatever was known before. */
  ghost predicate LastReport(records: seq<Discovered>, j: nat, id: string, kind: StatusKind, kickoff: Option<int>) {
    j < |records| && Reports(records[j], id, kind, kickoff) && BatchAgrees(records[j + 1..], id, kind, kickoff)
  }

  lemma LastReportFront(records: seq<Discovered>, j: nat, id: string, kind: StatusKind, kickoff: Option<int>)
    requires LastReport(records, j, id, kind, kickoff) && j < |records| - 1
    ensures LastReport(records[..|records| - 1], j, id, kind, kickoff)
    ensures Trim(records[|records| - 1].id) == id ==> Agrees(records[|records| - 1], kind, kickoff)
  {
    var front, tail := records[..|records| - 1], records[j + 1..];
    assert front[j] == records[j];
    var rest := front[j + 1..];
    assert rest == tail[..|tail| - 1];
    assert tail[|tail| - 1] == records[|records| - 1];
    forall i | 0 <= i < |rest| && Trim(rest[i].id) == id
      ensures Agrees(rest[i], kind, kickoff)
    {
      assert rest[i] == tail[i];
    }
  }

  lemma {:induction false} LastUpserted(t: Tracker, records: seq<Discovered>, now: int)
    requires 0 < |records|
    ensures Upserted(t, records, now) == UpsertOne(Upserted(t, records[..|records| - 1], now), records[|records| - 1], now)
  {}

  lemma {:induction false} ReportIsTracked(t: Tracker, records: seq<Discovered>, j: nat, now: int, id: string, kind: StatusKind, kickoff: Option<int>)
    requires TrackerOk(t) && LastReport(records, j, id, kind, kickoff)
    ensures Tracks(Upserted(t, records, now), id, kind, kickoff)
    decreases |records|
  {
    var front, last := records[..|records| - 1], records[|records| - 1];
    var before := Upserted(t, front, now);
    LastUpserted(t, records, now);
    if j < |front| {
      LastReportFront(records, j, id, kind, kickoff);
      ReportIsTracked(t, front, j, now, id, kind, kickoff);
      OneMoreAgrees(before, last, now, id, kind, kickoff);
    } else {
      UpsertKeepsOk(t, front, now);
      OneReports(before, last, now, id, kind, kickoff);
    }
  }

  /** Where a tracked fixture is polled, and whether a sweep drops it. */
  lemma {:induction false} TrackedIsRouted(t: Tracker, id: string, phase: Phase, now: int)
    requires TrackerOk(t) && id in t.ids && id in t.lifecycle
    ensures id in InPhases(t, t.ids, {phase}, now) <==> BelongsTo(t.lifecycle[id], phase, now)
    ensures id in Pruned(t, now).ids <==> !BelongsTo(t.lifecycle[id], SettledPhase, now)
    ensures id in Pruned(t, now).lifecycle <==> !BelongsTo(t.lifecycle[id], SettledPhase, now)
  {
    RoutedIs(t, t.ids, {phase}, now);
    assert RoutedTo(Find(t.lifecycle, id), {phase}, now) <==> BelongsTo(t.lifecycle[id], phase, now);
    SweptAre(t, now);
    SweepLeavesLiveSet(t, now);
    assert RoutedTo(Find(t.lifecycle, id), {SettledPhase}, now) <==> BelongsTo(t.lifecycle[id], SettledPhase, now);
  }

  // ------------------------------------------------------------------ in play

  lemma {:induction false} InPlayStays(t: Tracker, events: seq<Event>, id: string)
    requires Tracks(t, id, InPlay, None) && EventsAgree(events, id, InPlay, None)
    ensures Tracks(After(t, events), id, InPlay, None)
    decreases |events|
  {
    if |events| > 0 {
      match events[0] {
        case Upsert(records, at) => BatchKeepsTracks(t, records, at, id, InPlay, None);
        case Sweep(at) =>
          TrackedIsRouted(t, id, SettledPhase, at);
          SweepLeavesLiveSet(t, at);
      }
      assert EventsAgree(events[1..], id, InPlay, None);
      InPlayStays(Applied(t, events[0]), events[1..], id);
    }
  }

  /**
    A fixture last reported in play ("1H", "HT", "2H", "ET", "BT", "P", "INT" or "SUSP") is polled as
    live, and as nothing else, whatever its kickoff and however long ago it was, and survives every
    sweep, until another status is reported.
  */
  lemma {:induction false} InPlayIsPolledLive(t: Tracker, records: seq<Discovered>, j: nat, at: int, events: seq<Event>, id: string, now: int)
    requires TrackerOk(t) && LastReport(records, j, id, InPlay, None) && EventsAgree(events, id, InPlay, None)
    ensures var u := After(Upserted(t, records, at), events);
            && id in InPhases(u, u.ids, {LivePhase}, now)
            && (forall phase :: id in InPhases(u, u.ids, {phase}, now) ==> phase == LivePhase)
            && id in Pruned(u, now).ids && id in Pruned(u, now).lifecycle
  {
    ReportIsTracked(t, records, j, at, id, InPlay, None);
    InPlayStays(Upserted(t, records, at), events, id);
    RoutedLive(After(Upserted(t, records, at), events), id, now);
  }

  lemma {:induction false} RoutedLive(u: Tracker, id: string, now: int)
    requires Tracks(u, id, InPlay, None)
    ensures id in InPhases(u, u.ids, {LivePhase}, now)
    ensures forall phase :: id in InPhases(u, u.ids, {phase}, now) ==> phase == LivePhase
    ensures id in Pruned(u, now).ids && id in Pruned(u, now).lifecycle
  {
    OnlyLive(u.lifecycle[id], now);
    forall phase
      ensures id in InPhases(u, u.ids, {phase}, now) <==> phase == LivePhase
    {
      TrackedIsRouted(u, id, phase, now);
    }
    TrackedIsRouted(u, id, LivePhase, now);
  }

  lemma OnlyLive(r: Lifecycle, now: int)
    requires IsKind(r.status, InPlay)
    ensures forall phase :: BelongsTo(r, phase, now) <==> phase == LivePhase
  {}

  // ------------------------------------------------------------------ no play

  /**
    One last reported as not to be played ("PST", "CANC", "ABD", "AWD" or "WO") is polled by no
    workload, and the next sweep drops it.
  */
  lemma {:induction false} NoPlayLeavesAtTheNextSweep(t: Tracker, records: seq<Discovered>, j: nat, at: int, id: string, now: int)
    requires TrackerOk(t) && LastReport(records, j, id, NoPlay, None)
    ensures var u := Upserted(t, records, at);
            && (forall phase :: id in InPhases(u, u.ids, {phase}, now) ==> phase == SettledPhase)
            && id in u.ids && id !in Pruned(u, now).ids && id !in Pruned(u, now).lifecycle
  {
    ReportIsTracked(t, records, j, at, id, NoPlay, None);
    RoutedNowhere(Upserted(t, records, at), id, now);
  }

  lemma {:induction false} RoutedNowhere(u: Tracker, id: string, now: int)
    requires Tracks(u, id, NoPlay, None)
    ensures forall phase :: id in InPhases(u, u.ids, {phase}, now) ==> phase == SettledPhase
    ensures id !in Pruned(u, now).ids && id !in Pruned(u, now).lifecycle
  {
    OnlySettled(u.lifecycle[id], now);
    forall phase
      ensures id in InPhases(u, u.ids, {phase}, now) <==> phase == SettledPhase
    {
      TrackedIsRouted(u, id, phase, now);
    }
    TrackedIsRouted(u, id, SettledPhase, now);
  }

  lemma OnlySettled(r: Lifecycle, now: int)
    requires IsKind(r.status, NoPlay)
    ensures forall phase :: BelongsTo(r, phase, now) <==> phase == SettledPhase
  {}

  // ---------------------------------------------------------------- scheduled

  /** A sweep more than 210 minutes after the kickoff. */
  ghost predicate SweptAfter(events: seq<Event>, kickoff: int) {
    exists k :: 0 <= k < |events| && events[k].Sweep? && kickoff + 12_600_000 < events[k].at
  }

  ghost predicate Names(e: Event, id: string) {
    e.Upsert? && exists j :: 0 <= j < |e.records| && Trim(e.records[j].id) == id
  }

  /** Nothing is reported of the fixture once such a sweep has dropped it. */
  ghost predicate SilentAfterSweep(events: seq<Event>, id: string, kickoff: int) {
    forall i, k :: 0 <= i < k < |events| && events[i].Sweep? && kickoff + 12_600_000 < events[i].at ==> !Names(events[k], id)
  }

  ghost predicate Silent(events: seq<Event>, id: string) { forall k :: 0 <= k < |events| ==> !Names(events[k], id) }

  lemma {:induction false} BatchWithoutIt(t: Tracker, records: seq<Discovered>, now: int, id: string)
    requires TrackerOk(t) && id !in t.ids && forall j :: 0 <= j < |records| ==> Trim(records[j].id) != id
    ensures TrackerOk(Upserted(t, records, now)) && id !in Upserted(t, records, now).ids
  {
    if |records| > 0 {
      BatchWithoutIt(t, records[..|records| - 1], now, id);
    }
  }

  lemma {:induction false} StaysAway(t: Tracker, events: seq<Event>, id: string)
    requires TrackerOk(t) && id !in t.ids && Silent(events, id)
    ensures TrackerOk(After(t, events)) && id !in After(t, events).ids
    decreases |events|
  {
    if |events| > 0 {
      assert !Names(events[0], id);
      match events[0] {
        case Upsert(records, at) => BatchWithoutIt(t, records, at, id);
        case Sweep(at) => SweepLeavesLiveSet(t, at);
      }
      assert Silent(events[1..], id);
      StaysAway(Applied(t, events[0]), events[1..], id);
    }
  }

  predicate LateFor(e: Event, kickoff: int) { e.Sweep? && kickoff + 12_600_000 < e.at }

  lemma ScheduledStep(t: Tracker, e: Event, id: string, kickoff: int)
    requires Tracks(t, id, Scheduled, Some(kickoff)) && (e.Upsert? ==> BatchAgrees(e.records, id, Scheduled, Some(kickoff)))
    ensures if LateFor(e, kickoff) then TrackerOk(Applied(t, e)) && id !in Applied(t, e).ids
            else Tracks(Applied(t, e), id, Scheduled, Some(kickoff))
  {
    match e {
      case Sweep(at) =>
        TrackedIsRouted(t, id, SettledPhase, at);
        SweepLeavesLiveSet(t, at);
      case Upsert(records, at) => BatchKeepsTracks(t, records, at, id, Scheduled, Some(kickoff));
    }
  }

  lemma SilentTail(events: seq<Event>, id: string, kickoff: int)
    requires 0 < |events| && SilentAfterSweep(events, id, kickoff)
    ensures SilentAfterSweep(events[1..], id, kickoff)
    ensures LateFor(events[0], kickoff) ==> Silent(events[1..], id)
  {
    forall k | 0 <= k < |events[1..]| && LateFor(events[0], kickoff)
      ensures !Names(events[1..][k], id)
    {
      assert events[1..][k] == events[k + 1];
    }
  }

  lemma {:induction false} ScheduledStays(t: Tracker, events: seq<Event>, id: string, kickoff: int)
    requires Tracks(t, id, Scheduled, Some(kickoff)) && EventsAgree(events, id, Scheduled, Some(kickoff)) && SilentAfterSweep(events, id, kickoff)
    ensures if SweptAfter(events, kickoff) then TrackerOk(After(t, events)) && id !in After(t, events).ids
            else Tracks(After(t, events), id, Scheduled, Some(kickoff))
    decreases |events|
  {
    if |events| > 0 {
      ScheduledStep(t, events[0], id, kickoff);
      SilentTail(events, id, kickoff);
      if LateFor(events[0], kickoff) {
        StaysAway(Applied(t, events[0]), events[1..], id);
      } else {
        assert EventsAgree(events[1..], id, Scheduled, Some(kickoff));
        SweptTail(events, kickoff);
        ScheduledStays(Applied(t, events[0]), events[1..], id, kickoff);
      }
    }
  }

  lemma SweptTail(events: seq<Event>, kickoff: int)
    requires 0 < |events| && !(events[0].Sweep? && kickoff + 12_600_000 < events[0].at)
    ensures SweptAfter(events, kickoff) <==> SweptAfter(events[1..], kickoff)
  {
    var rest := events[1..];
    if SweptAfter(events, kickoff) {
      var k :| 0 <= k < |events| && events[k].Sweep? && kickoff + 12_600_000 < events[k].at;
      assert rest[k - 1].Sweep?;
    }
    if SweptAfter(rest, kickoff) {
      var k :| 0 <= k < |rest| && rest[k].Sweep? && kickoff + 12_600_000 < rest[k].at;
      assert events[k + 1].Sweep?;
    }
  }

  /**
    One last reported with any other status follows the clock: until 90 minutes before its kickoff it
    is upcoming, from then until 5 minutes before it pre-kickoff, from then until 210 minutes after it
    live; later it is polled by nobody, and a sweep drops it then and no earlier, whatever else is
    reported and swept in between.
  */
  lemma {:induction false} ScheduledFollowsTheClock(t: Tracker, records: seq<Discovered>, j: nat, at: int, events: seq<Event>, id: string, kickoff: int, now: int)
    requires TrackerOk(t) && LastReport(records, j, id, Scheduled, Some(kickoff))
    requires EventsAgree(events, id, Scheduled, Some(kickoff)) && SilentAfterSweep(events, id, kickoff)
    ensures var u := After(Upserted(t, records, at), events);
            if SweptAfter(events, kickoff) then id !in u.ids && id !in u.lifecycle
            else
              && (id in InPhases(u, u.ids, {Upcoming}, now) <==> now < kickoff - 5_400_000)
              && (id in InPhases(u, u.ids, {PreKO}, now) <==> kickoff - 5_400_000 <= now < kickoff - 300_000)
              && (id in InPhases(u, u.ids, {LivePhase}, now) <==> kickoff - 300_000 <= now <= kickoff + 12_600_000)
              && id !in InPhases(u, u.ids, {PostFinal}, now)
              && (id in Pruned(u, now).ids <==> now <= kickoff + 12_600_000)
  {
    ReportIsTracked(t, records, j, at, id, Scheduled, Some(kickoff));
    ScheduledStays(Upserted(t, records, at), events, id, kickoff);
    if !SweptAfter(events, kickoff) {
      RoutedByClock(After(Upserted(t, records, at), events), id, kickoff, now);
    }
  }

  lemma {:induction false} RoutedByClock(u: Tracker, id: string, kickoff: int, now: int)
    requires Tracks(u, id, Scheduled, Some(kickoff))
    ensures id in InPhases(u, u.ids, {Upcoming}, now) <==> now < kickoff - 5_400_000
    ensures id in InPhases(u, u.ids, {PreKO}, now) <==> kickoff - 5_400_000 <= now < kickoff - 300_000
    ensures id in InPhases(u, u.ids, {LivePhase}, now) <==> kickoff - 300_000 <= now <= kickoff + 12_600_000
    ensures id !in InPhases(u, u.ids, {PostFinal}, now)
    ensures id in Pruned(u, now).ids <==> now <= kickoff + 12_600_000
  {
    BelongsByClock(u.lifecycle[id], kickoff, now);
    TrackedIsRouted(u, id, Upcoming, now);
    TrackedIsRouted(u, id, PreKO, now);
    TrackedIsRouted(u, id, LivePhase, now);
    TrackedIsRouted(u, id, PostFinal, now);
  }

  lemma BelongsByClock(r: Lifecycle, kickoff: int, now: int)
    requires IsKind(r.status, Scheduled) && r.kickoffMs == Some(kickoff)
    ensures BelongsTo(r, Upcoming, now) <==> now < kickoff - 5_400_000
    ensures BelongsTo(r, PreKO, now) <==> kickoff - 5_400_000 <= now < kickoff - 300_000
    ensures BelongsTo(r, LivePhase, now) <==> kickoff - 300_000 <= now <= kickoff + 12_600_000
    ensures !BelongsTo(r, PostFinal, now)
    ensures BelongsTo(r, SettledPhase, now) <==> kickoff + 12_600_000 < now
  {}

  /** Without a kickoff it is upcoming at all times, and no sweep drops it. */
  lemma {:induction false} UndatedStaysUpcoming(t: Tracker, events: seq<Event>, id: string, now: int)
    requires Tracks(t, id, Scheduled, None) && EventsAgree(events, id, Scheduled, None)
    ensures var u := After(t, events);
            && Tracks(u, id, Scheduled, None)
            && id in InPhases(u, u.ids, {Upcoming}, now) && id in Pruned(u, now).ids
    decreases |events|
  {
    if |events| == 0 {
      TrackedIsRouted(t, id, Upcoming, now);
    } else {
      match events[0] {
        case Upsert(records, at) => BatchKeepsTracks(t, records, at, id, Scheduled, None);
        case Sweep(at) =>
          TrackedIsRouted(t, id, SettledPhase, at);
          SweepLeavesLiveSet(t, at);
      }
      assert EventsAgree(events[1..], id, Scheduled, None);
      UndatedStaysUpcoming(Applied(t, events[0]), events[1..], id, now);
    }
  }
}
