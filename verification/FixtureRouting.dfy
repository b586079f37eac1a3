/**
  Fixture routing (src/worker/ingestion.ts): the tracked set and the lifecycle map inside
  `start()`, the upsert that refreshes them, the sweep that prunes settled fixtures, and
  the phase that decides which workload polls a fixture.
*/
module FixtureRouting {
  import opened Common

  const PRE_KICKOFF_LEAD_MS: int := 90 * 60 * 1_000
  const KICKOFF_GRACE_MS: int := 5 * 60 * 1_000
  const MAX_LIVE_WINDOW_MS: int := 210 * 60 * 1_000
  const POST_FINAL_WINDOW_MS: int := 25 * 60 * 1_000

  const LIVE_FIXTURE_STATUSES: set<string> := {"1H", "HT", "2H", "ET", "BT", "P", "INT", "SUSP"}
  const FINAL_FIXTURE_STATUSES: set<string> := {"FT", "AET", "PEN"}
  const TERMINAL_NO_PLAY_STATUSES: set<string> := {"PST", "CANC", "ABD", "AWD", "WO"}

  datatype Phase = Upcoming | PreKO | LivePhase | PostFinal | SettledPhase

  datatype Lifecycle = Lifecycle(status: string, kickoffMs: Option<int>, finalSinceMs: Option<int>, lastSeenMs: int)

  datatype Discovered = Discovered(id: string, status: string, kickoffMs: Option<int>)

  function FixturePhase(rec: Option<Lifecycle>, now: int): Phase {
    if rec.None? then SettledPhase
    else
      var r := rec.value;
      if r.status in LIVE_FIXTURE_STATUSES then LivePhase
      else if r.status in FINAL_FIXTURE_STATUSES then
        var since := if r.finalSinceMs.Some? then r.finalSinceMs.value else now;
        if now <= since + POST_FINAL_WINDOW_MS then PostFinal else SettledPhase
      else if r.status in TERMINAL_NO_PLAY_STATUSES then SettledPhase
      else if r.kickoffMs.Some? then
        if now > r.kickoffMs.value + MAX_LIVE_WINDOW_MS then SettledPhase
        else if now >= r.kickoffMs.value - KICKOFF_GRACE_MS then LivePhase
        else if now >= r.kickoffMs.value - PRE_KICKOFF_LEAD_MS then PreKO
        else Upcoming
      else Upcoming
  }

  // ----------------------------------------- routing by status and the clock

  datatype StatusKind = InPlay | Final | NoPlay | Scheduled

  predicate IsKind(status: string, kind: StatusKind) {
    match kind
    case InPlay => status in {"1H", "HT", "2H", "ET", "BT", "P", "INT", "SUSP"}
    case Final => status in {"FT", "AET", "PEN"}
    case NoPlay => status in {"PST", "CANC", "ABD", "AWD", "WO"}
    case Scheduled =>
      status !in {"1H", "HT", "2H", "ET", "BT", "P", "INT", "SUSP", "FT", "AET", "PEN", "PST", "CANC", "ABD", "AWD", "WO"}
  }

  /**
    Where a known fixture belongs at `now`. In play: live. Final: post-final for 25 minutes from the
    first final sighting. Scheduled: pre-kickoff from 90 to 5 minutes before its kickoff, then live
    until 210 minutes after it, and upcoming before, or without a kickoff. Else it is settled.
  */
  predicate BelongsTo(r: Lifecycle, phase: Phase, now: int) {
    var clock := IsKind(r.status, Scheduled) && r.kickoffMs.Some?;
    var since := if r.finalSinceMs.Some? then r.finalSinceMs.value else now;
    match phase
    case LivePhase => IsKind(r.status, InPlay) || (clock && r.kickoffMs.value - 300_000 <= now <= r.kickoffMs.value + 12_600_000)
    case PreKO => clock && r.kickoffMs.value - 5_400_000 <= now < r.kickoffMs.value - 300_000
    case Upcoming => IsKind(r.status, Scheduled) && (clock ==> now < r.kickoffMs.value - 5_400_000)
    case PostFinal => IsKind(r.status, Final) && now <= since + 1_500_000
    case SettledPhase =>
      IsKind(r.status, NoPlay) || (IsKind(r.status, Final) && since + 1_500_000 < now) || (clock && r.kickoffMs.value + 12_600_000 < now)
  }

  lemma PhaseIs(r: Lifecycle, phase: Phase, now: int)
    ensures FixturePhase(Some(r), now) == phase <==> BelongsTo(r, phase, now)
  {
    StatusesDisjoint();
  }

  // ------------------------------------------------------------------ state

  /** Tracked ids in the order they were added, and what is known about each. */
  datatype Tracker = Tracker(ids: seq<string>, lifecycle: map<string, Lifecycle>)

  function Find(lifecycle: map<string, Lifecycle>, id: string): Option<Lifecycle> {
    if id in lifecycle then Some(lifecycle[id]) else None
  }

  function AddId(ids: seq<string>, id: string): seq<string> {
    if id in ids then ids else ids + [id]
  }

  /** Trimmed, without blanks or repeats, in first-seen order. */
  function NormaliseResourceIds(ids: seq<string>): seq<string> {
    if |ids| == 0 then []
    else
      var rest, id := NormaliseResourceIds(ids[..|ids| - 1]), Trim(ids[|ids| - 1]);
      if id == "" then rest else AddId(rest, id)
  }

  /** One record's new lifecycle; an empty status or a missing kickoff keeps the old one. */
  function Refreshed(prev: Option<Lifecycle>, r: Discovered, now: int): Lifecycle {
    var status := if r.status != "" then r.status else if prev.Some? then prev.value.status else "";
    Lifecycle(
      status,
      if r.kickoffMs.Some? then r.kickoffMs else if prev.Some? then prev.value.kickoffMs else None,
      if status !in FINAL_FIXTURE_STATUSES then None
      else if prev.Some? && prev.value.finalSinceMs.Some? then prev.value.finalSinceMs
      else Some(now),
      now)
  }

  function UpsertOne(t: Tracker, r: Discovered, now: int): Tracker {
    var id := Trim(r.id);
    if id == "" then t
    else Tracker(AddId(t.ids, id), t.lifecycle[id := Refreshed(Find(t.lifecycle, id), r, now)])
  }

  function Upserted(t: Tracker, records: seq<Discovered>, now: int): Tracker {
    if |records| == 0 then t
    else UpsertOne(Upserted(t, records[..|records| - 1], now), records[|records| - 1], now)
  }

  predicate IsSettled(t: Tracker, id: string, now: int) {
    FixturePhase(Find(t.lifecycle, id), now) == SettledPhase
  }

  function KeptIds(t: Tracker, ids: seq<string>, now: int): seq<string> {
    if |ids| == 0 then []
    else KeptIds(t, ids[..|ids| - 1], now) + (if IsSettled(t, ids[|ids| - 1], now) then [] else [ids[|ids| - 1]])
  }

  function Pruned(t: Tracker, now: int): Tracker {
    Tracker(KeptIds(t, t.ids, now), map id | id in t.lifecycle && !(id in t.ids && IsSettled(t, id, now)) :: t.lifecycle[id])
  }

  function InPhases(t: Tracker, ids: seq<string>, wanted: set<Phase>, now: int): seq<string> {
    if |ids| == 0 then []
    else
      InPhases(t, ids[..|ids| - 1], wanted, now)
      + (if FixturePhase(Find(t.lifecycle, ids[|ids| - 1]), now) in wanted then [ids[|ids| - 1]] else [])
  }

  class FixtureTracker {
    var fixtureIds: seq<string>
    var fixtureLifecycle: map<string, Lifecycle>

    ghost function State(): Tracker
      reads this
    {
      Tracker(fixtureIds, fixtureLifecycle)
    }

    constructor (ids: seq<string>)
      ensures State() == Tracker(NormaliseResourceIds(ids), map[])
    {
      fixtureIds, fixtureLifecycle := NormaliseResourceIds(ids), map[];
    }

    method UpsertFixtures(records: seq<Discovered>, now: int)
      modifies this
      ensures State() == Upserted(old(State()), records, now)
      ensures forall id :: id in fixtureIds <==> id in old(fixtureIds) || (id != "" && Reported(records, id))
    {
      UpsertedIds(State(), records, now);
      for i := 0 to |records|
        invariant State() == Upserted(old(State()), records[..i], now)
      {
        assert records[..i + 1][..i] == records[..i];
        var record := records[i];
        var id := Trim(record.id);
        if id == "" {
          continue;
        }
        fixtureIds := AddId(fixtureIds, id);
        var prev := Find(fixtureLifecycle, id);
        var status := if record.status != "" then record.status else if prev.Some? then prev.value.status else "";
        var isFinal := status in FINAL_FIXTURE_STATUSES;
        var kickoff := if record.kickoffMs.Some? then record.kickoffMs else if prev.Some? then prev.value.kickoffMs else None;
        var finalSince: Option<int> := None;
        if isFinal {
          finalSince := if prev.Some? && prev.value.finalSinceMs.Some? then prev.value.finalSinceMs else Some(now);
        }
        fixtureLifecycle := fixtureLifecycle[id := Lifecycle(status, kickoff, finalSince, now)];
      }
      assert records[..|records|] == records;
    }

    method IdsInPhase(wanted: set<Phase>, now: int) returns (out: seq<string>)
      ensures out == InPhases(State(), fixtureIds, wanted, now)
      ensures forall id :: id in out <==> id in fixtureIds && RoutedTo(Find(fixtureLifecycle, id), wanted, now)
    {
      RoutedIs(State(), fixtureIds, wanted, now);
      out := [];
      for i := 0 to |fixtureIds|
        invariant out == InPhases(State(), fixtureIds[..i], wanted, now)
      {
        assert fixtureIds[..i + 1][..i] == fixtureIds[..i];
        if FixturePhase(Find(fixtureLifecycle, fixtureIds[i]), now) in wanted {
          out := out + [fixtureIds[i]];
        }
      }
      assert fixtureIds[..|fixtureIds|] == fixtureIds;
    }

    /** Visits every tracked id once, dropping the settled ones from both structures. */
    method PruneSettledFixtures(now: int)
      requires Distinct(fixtureIds)
      modifies this
      ensures State() == Pruned(old(State()), now)
      ensures forall id :: id in fixtureIds <==> id in old(fixtureIds) && !RoutedTo(Find(old(fixtureLifecycle), id), {SettledPhase}, now)
    {
      ghost var was := State();
      var visit := fixtureIds;
      var kept: seq<string> := [];
      for i := 0 to |visit|
        invariant visit == was.ids && fixtureIds == was.ids
        invariant kept == KeptIds(was, was.ids[..i], now)
        invariant fixtureLifecycle == PartlyPruned(was, i, now)
      {
        var id := visit[i];
        assert was.ids[..i + 1][..i] == was.ids[..i];
        assert id !in was.ids[..i];
        assert Find(fixtureLifecycle, id) == Find(was.lifecycle, id);
        if FixturePhase(Find(fixtureLifecycle, id), now) == SettledPhase {
          fixtureLifecycle := fixtureLifecycle - {id};
        } else {
          kept := kept + [id];
        }
        assert fixtureLifecycle == PartlyPruned(was, i + 1, now) by {
          assert forall k :: k in was.ids[..i + 1] <==> k in was.ids[..i] || k == id;
        }
      }
      fixtureIds := kept;
      assert was.ids[..|was.ids|] == was.ids;
      SweptAre(was, now);
    }
  }

  ghost predicate Distinct(ids: seq<string>) {
    forall i, j :: 0 <= i < j < |ids| ==> ids[i] != ids[j]
  }

  /** The lifecycle map once the first `n` tracked ids have been visited. */
  ghost function PartlyPruned(t: Tracker, n: nat, now: int): map<string, Lifecycle>
    requires n <= |t.ids|
  {
    map id | id in t.lifecycle && !(id in t.ids[..n] && IsSettled(t, id, now)) :: t.lifecycle[id]
  }

  // ------------------------------------------------------ the tracked set

  /** Nothing is known about a fixture that is not tracked, no id is tracked twice, and none is blank. */
  ghost predicate TrackerOk(t: Tracker) {
    Distinct(t.ids) && "" !in t.ids && forall id :: id in t.lifecycle ==> id in t.ids
  }

  ghost predicate Given(ids: seq<string>, id: string) { exists k :: 0 <= k < |ids| && Trim(ids[k]) == id }

  lemma GivenLast(ids: seq<string>, id: string)
    requires 0 < |ids|
    ensures Given(ids, id) <==> Given(ids[..|ids| - 1], id) || Trim(ids[|ids| - 1]) == id
  {
    var front := ids[..|ids| - 1];
    if Given(front, id) {
      var k :| 0 <= k < |front| && Trim(front[k]) == id;
      assert ids[k] == front[k];
    }
  }

  /** The boot ids are tracked trimmed, once each, blanks left out, and more of them only adds at the end. */
  lemma {:induction false} BootTrackerOk(ids: seq<string>)
    ensures TrackerOk(Tracker(NormaliseResourceIds(ids), map[]))
    ensures forall id :: id in NormaliseResourceIds(ids) <==> id != "" && Given(ids, id)
    ensures 0 < |ids| ==> NormaliseResourceIds(ids[..|ids| - 1]) <= NormaliseResourceIds(ids)
  {
    if |ids| > 0 {
      BootTrackerOk(ids[..|ids| - 1]);
      forall id
        ensures Given(ids, id) <==> Given(ids[..|ids| - 1], id) || Trim(ids[|ids| - 1]) == id
      {
        GivenLast(ids, id);
      }
    }
  }

  lemma {:induction false} UpsertKeepsOk(t: Tracker, records: seq<Discovered>, now: int)
    requires TrackerOk(t)
    ensures TrackerOk(Upserted(t, records, now))
  {
    if |records| > 0 {
      UpsertKeepsOk(t, records[..|records| - 1], now);
    }
  }

  ghost predicate Reported(records: seq<Discovered>, id: string) { exists j :: 0 <= j < |records| && Trim(records[j].id) == id }

  /** An upsert adds the reported ids, trimmed and blanks left out, and takes none away. */
  lemma {:induction false} UpsertedIds(t: Tracker, records: seq<Discovered>, now: int)
    ensures forall id :: id in Upserted(t, records, now).ids <==> id in t.ids || (id != "" && Reported(records, id))
    ensures t.ids <= Upserted(t, records, now).ids
  {
    if |records| > 0 {
      var front, last := records[..|records| - 1], records[|records| - 1];
      UpsertedIds(t, front, now);
      forall id
        ensures Reported(records, id) <==> Reported(front, id) || Trim(last.id) == id
      {
        if Reported(front, id) {
          var j :| 0 <= j < |front| && Trim(front[j].id) == id;
          assert records[j] == front[j];
        }
      }
    }
  }

  lemma {:induction false} KeptIdsAre(t: Tracker, ids: seq<string>, now: int)
    requires Distinct(ids)
    ensures Distinct(KeptIds(t, ids, now))
    ensures forall id :: id in KeptIds(t, ids, now) <==> id in ids && !IsSettled(t, id, now)
  {
    if |ids| > 0 {
      var rest, last := ids[..|ids| - 1], ids[|ids| - 1];
      KeptIdsAre(t, rest, now);
      assert ids == rest + [last];
      assert last !in rest;
    }
  }

  /**
    Right after a sweep the lifecycle map and the tracked set name the same fixtures, none of
    them is settled, and what is left is exactly what was tracked and not settled, unchanged.
  */
  lemma SweepLeavesLiveSet(t: Tracker, now: int)
    requires TrackerOk(t)
    ensures var u := Pruned(t, now);
            && TrackerOk(u)
            && (forall id :: id in u.lifecycle <==> id in u.ids)
            && (forall id :: id in u.ids ==> !IsSettled(u, id, now))
            && (forall id :: id in u.ids <==> id in t.ids && !IsSettled(t, id, now))
            && (forall id :: id in u.ids ==> Find(u.lifecycle, id) == Find(t.lifecycle, id))
  {
    KeptIdsAre(t, t.ids, now);
  }

  /** Routing polls a tracked fixture in exactly one phase: the lists by phase partition the tracked ids. */
  lemma {:induction false} RoutingIsAPartition(t: Tracker, ids: seq<string>, wanted: set<Phase>, now: int)
    ensures forall id :: id in InPhases(t, ids, wanted, now) <==> id in ids && FixturePhase(Find(t.lifecycle, id), now) in wanted
    ensures |InPhases(t, ids, wanted, now)| + |InPhases(t, ids, AllPhases() - wanted, now)| == |ids|
  {
    if |ids| > 0 {
      RoutingIsAPartition(t, ids[..|ids| - 1], wanted, now);
      assert ids == ids[..|ids| - 1] + [ids[|ids| - 1]];
    }
  }

  /** A tracked fixture is listed by what is known of it; one of which nothing is known is settled. */
  ghost predicate RoutedTo(rec: Option<Lifecycle>, wanted: set<Phase>, now: int) {
    if rec.None? then SettledPhase in wanted else exists phase :: phase in wanted && BelongsTo(rec.value, phase, now)
  }

  lemma RoutedToIs(rec: Option<Lifecycle>, wanted: set<Phase>, now: int)
    ensures FixturePhase(rec, now) in wanted <==> RoutedTo(rec, wanted, now)
  {
    if rec.Some? {
      PhaseIs(rec.value, FixturePhase(rec, now), now);
      forall phase
        ensures FixturePhase(rec, now) == phase <==> BelongsTo(rec.value, phase, now)
      {
        PhaseIs(rec.value, phase, now);
      }
    }
  }

  lemma {:induction false} RoutedIs(t: Tracker, ids: seq<string>, wanted: set<Phase>, now: int)
    ensures forall id :: id in InPhases(t, ids, wanted, now) <==> id in ids && RoutedTo(Find(t.lifecycle, id), wanted, now)
  {
    RoutingIsAPartition(t, ids, wanted, now);
    forall id
      ensures FixturePhase(Find(t.lifecycle, id), now) in wanted <==> RoutedTo(Find(t.lifecycle, id), wanted, now)
    {
      RoutedToIs(Find(t.lifecycle, id), wanted, now);
    }
  }

  /** A sweep keeps exactly the tracked fixtures that do not belong to the settled ones. */
  lemma SweptAre(t: Tracker, now: int)
    requires Distinct(t.ids)
    ensures forall id :: id in Pruned(t, now).ids <==> id in t.ids && !RoutedTo(Find(t.lifecycle, id), {SettledPhase}, now)
  {
    KeptIdsAre(t, t.ids, now);
    forall id
      ensures IsSettled(t, id, now) <==> RoutedTo(Find(t.lifecycle, id), {SettledPhase}, now)
    {
      RoutedToIs(Find(t.lifecycle, id), {SettledPhase}, now);
    }
  }

  function AllPhases(): set<Phase> { {Upcoming, PreKO, LivePhase, PostFinal, SettledPhase} }

  // ----------------------------------------------------------- whole runs

  datatype Event = Upsert(records: seq<Discovered>, at: int) | Sweep(at: int)

  function Applied(t: Tracker, e: Event): Tracker {
    match e
    case Upsert(records, at) => Upserted(t, records, at)
    case Sweep(at) => Pruned(t, at)
  }

  predicate Monotone(start: int, events: seq<Event>)
    decreases |events|
  {
    |events| == 0 || (start <= events[0].at && Monotone(events[0].at, events[1..]))
  }

  function After(t: Tracker, events: seq<Event>): Tracker
    decreases |events|
  {
    if |events| == 0 then t else After(Applied(t, events[0]), events[1..])
  }

  /** Every status a run reports for `id` is final or left out. */
  predicate StaysFinal(events: seq<Event>, id: string) {
    forall k :: 0 <= k < |events| && events[k].Upsert? ==>
      forall j :: 0 <= j < |events[k].records| && Trim(events[k].records[j].id) == id ==>
        events[k].records[j].status == "" || events[k].records[j].status in FINAL_FIXTURE_STATUSES
  }

  /** Final since `since`, and still tracked. */
  predicate FinalSince(t: Tracker, id: string, since: int) {
    && id in t.ids && id in t.lifecycle
    && t.lifecycle[id].status in FINAL_FIXTURE_STATUSES
    && t.lifecycle[id].finalSinceMs == Some(since)
  }

  /** The first final status seen for a fixture starts its post-final window, kickoff or not. */
  lemma {:induction false} FirstFinalSighting(t: Tracker, r: Discovered, now: int)
    requires Trim(r.id) != "" && r.status in FINAL_FIXTURE_STATUSES
    requires Trim(r.id) in t.lifecycle ==> t.lifecycle[Trim(r.id)].finalSinceMs == None
    ensures FinalSince(Upserted(t, [r], now), Trim(r.id), now)
  {
    assert [r][..0] == [];
    assert Upserted(t, [r], now) == UpsertOne(t, r, now);
    assert "" !in FINAL_FIXTURE_STATUSES;
  }

  lemma {:induction false} UpsertKeepsFinalSince(t: Tracker, records: seq<Discovered>, now: int, id: string, since: int)
    requires FinalSince(t, id, since)
    requires forall j :: 0 <= j < |records| && Trim(records[j].id) == id ==>
               records[j].status == "" || records[j].status in FINAL_FIXTURE_STATUSES
    ensures FinalSince(Upserted(t, records, now), id, since)
  {
    if |records| > 0 {
      assert "" !in FINAL_FIXTURE_STATUSES;
      UpsertKeepsFinalSince(t, records[..|records| - 1], now, id, since);
    }
  }

  lemma TailStaysFinal(events: seq<Event>, id: string)
    requires 0 < |events| && StaysFinal(events, id)
    ensures StaysFinal(events[1..], id)
  {
    forall k | 0 <= k < |events[1..]| && events[1..][k].Upsert?
      ensures forall j :: 0 <= j < |events[1..][k].records| && Trim(events[1..][k].records[j].id) == id ==>
                events[1..][k].records[j].status == "" || events[1..][k].records[j].status in FINAL_FIXTURE_STATUSES
    {
      assert events[1..][k] == events[k + 1];
    }
  }

  lemma StatusesDisjoint()
    ensures LIVE_FIXTURE_STATUSES !! FINAL_FIXTURE_STATUSES !! TERMINAL_NO_PLAY_STATUSES
  {}

  lemma FinalPhase(r: Lifecycle, now: int)
    requires r.status in FINAL_FIXTURE_STATUSES && r.finalSinceMs.Some?
    ensures FixturePhase(Some(r), now) == if now <= r.finalSinceMs.value + POST_FINAL_WINDOW_MS then PostFinal else SettledPhase
  {
    StatusesDisjoint();
  }

  /**
    One sweep and one final re-sighting of a fixture final since `since`: it is post-final again
    after the window exactly when the sweep came after the window too.
  */
  lemma {:induction false} RetrackingRestartsIff(t: Tracker, r: Discovered, since: int, swept: int, now: int)
    requires TrackerOk(t) && FinalSince(t, Trim(r.id), since) && Trim(r.id) != "" && r.status in FINAL_FIXTURE_STATUSES
    requires since <= swept <= now && since + POST_FINAL_WINDOW_MS < now
    ensures FixturePhase(Find(Upserted(Pruned(t, swept), [r], now).lifecycle, Trim(r.id)), now) == PostFinal <==>
            since + POST_FINAL_WINDOW_MS < swept
  {
    var id, p := Trim(r.id), Pruned(t, swept);
    var u := Upserted(p, [r], now);
    FinalPhase(t.lifecycle[id], swept);
    KeptIdsAre(t, t.ids, swept);
    if since + POST_FINAL_WINDOW_MS < swept {
      FirstFinalSighting(p, r, now);
    } else {
      UpsertKeepsFinalSince(p, [r], now, id, since);
    }
    FinalPhase(u.lifecycle[id], now);
  }

  // ------------------------------------- leaving the window for good, exactly

  /** A batch reports `id` with a final status. */
  ghost predicate ReportsFinal(records: seq<Discovered>, id: string) {
    exists j :: 0 <= j < |records| && Trim(records[j].id) == id && records[j].status in FINAL_FIXTURE_STATUSES
  }

  /** Not tracked, or tracked again without any status. */
  ghost predicate Gone(t: Tracker, id: string) {
    id in t.lifecycle ==> t.lifecycle[id].status == "" && t.lifecycle[id].finalSinceMs == None
  }

  ghost predicate FinalOrEmpty(records: seq<Discovered>, id: string) {
    forall j :: 0 <= j < |records| && Trim(records[j].id) == id ==>
      records[j].status == "" || records[j].status in FINAL_FIXTURE_STATUSES
  }

  lemma {:induction false} UpsertBringsBack(t: Tracker, records: seq<Discovered>, now: int, id: string)
    requires Gone(t, id) && id != "" && FinalOrEmpty(records, id)
    ensures if ReportsFinal(records, id) then FinalSince(Upserted(t, records, now), id, now) else Gone(Upserted(t, records, now), id)
  {
    if |records| > 0 {
      assert "" !in FINAL_FIXTURE_STATUSES;
      var front, last := records[..|records| - 1], records[|records| - 1];
      UpsertBringsBack(t, front, now, id);
      assert ReportsFinal(records, id) <==> ReportsFinal(front, id) || (Trim(last.id) == id && last.status in FINAL_FIXTURE_STATUSES) by {
        if ReportsFinal(front, id) {
          var j :| 0 <= j < |front| && Trim(front[j].id) == id && front[j].status in FINAL_FIXTURE_STATUSES;
          assert records[j] == front[j];
        }
        if Trim(last.id) == id && last.status in FINAL_FIXTURE_STATUSES {
          assert records[|records| - 1] == last;
        }
      }
    }
  }

  /** After `k` events and before the next, at a moment past `deadline`, `id` is routed as post-final. */
  ghost predicate BackAt(t: Tracker, events: seq<Event>, id: string, deadline: int, k: nat, now: int) {
    && k <= |events| && (0 < k ==> events[k - 1].at <= now) && (k < |events| ==> now <= events[k].at) && deadline < now
    && FixturePhase(Find(After(t, events[..k]).lifecycle, id), now) == PostFinal
  }

  ghost predicate BackInWindow(t: Tracker, events: seq<Event>, id: string, deadline: int) {
    exists k: nat, now: int :: BackAt(t, events, id, deadline, k, now)
  }

  /** A final sighting of `id` follows a sweep later than `deadline`. */
  ghost predicate SeenAfterLateSweep(events: seq<Event>, id: string, deadline: int) {
    exists j, k :: 0 <= j < k < |events| && LateSweep(events[j], deadline) && Sighting(events[k], id)
  }

  ghost predicate LateSweep(e: Event, deadline: int) { e.Sweep? && deadline < e.at }

  ghost predicate Sighting(e: Event, id: string) { e.Upsert? && ReportsFinal(e.records, id) }

  ghost predicate SeenIn(events: seq<Event>, id: string) { exists k :: 0 <= k < |events| && Sighting(events[k], id) }

  /** Where the fixture is: final since `since` and tracked, or swept and not seen final again. */
  ghost predicate Stands(t: Tracker, id: string, since: int, gone: bool) {
    TrackerOk(t) && id != "" && if gone then Gone(t, id) else FinalSince(t, id, since)
  }

  /** Either way it is not post-final after the window. */
  lemma StandsOutside(t: Tracker, id: string, since: int, gone: bool, now: int)
    requires Stands(t, id, since, gone) && since + POST_FINAL_WINDOW_MS < now
    ensures FixturePhase(Find(t.lifecycle, id), now) != PostFinal
  {
    if !gone {
      FinalPhase(t.lifecycle[id], now);
    }
  }

  /** One event leaves it where it is, drops it, or brings it back. */
  lemma EventMoves(t: Tracker, e: Event, id: string, since: int, gone: bool)
    requires Stands(t, id, since, gone) && (e.Upsert? ==> FinalOrEmpty(e.records, id))
    ensures TrackerOk(Applied(t, e))
    ensures if gone && Sighting(e, id) then FinalSince(Applied(t, e), id, e.at)
            else Stands(Applied(t, e), id, since, gone || LateSweep(e, since + POST_FINAL_WINDOW_MS))
  {
    match e {
      case Upsert(records, at) =>
        UpsertKeepsOk(t, records, at);
        if gone {
          UpsertBringsBack(t, records, at, id);
        } else {
          UpsertKeepsFinalSince(t, records, at, id, since);
        }
      case Sweep(at) =>
        SweepLeavesLiveSet(t, at);
        KeptIdsAre(t, t.ids, at);
        if !gone {
          FinalPhase(t.lifecycle[id], at);
        }
    }
  }

  lemma BackShift(t: Tracker, events: seq<Event>, id: string, deadline: int, k: nat, now: int)
    requires 0 < |events| && 0 < k && BackAt(t, events, id, deadline, k, now)
    ensures BackAt(Applied(t, events[0]), events[1..], id, deadline, k - 1, now)
  {
    assert events[..k][1..] == events[1..][..k - 1];
    assert 1 < k ==> events[1..][k - 2] == events[k - 1];
    assert k < |events| ==> events[1..][k - 1] == events[k];
  }

  lemma BackUnshift(t: Tracker, events: seq<Event>, id: string, deadline: int, k: nat, now: int)
    requires 0 < |events| && BackAt(Applied(t, events[0]), events[1..], id, deadline, k, now) && (k == 0 ==> events[0].at <= now)
    ensures BackAt(t, events, id, deadline, k + 1, now)
  {
    assert events[..k + 1][1..] == events[1..][..k];
    assert 0 < k ==> events[1..][k - 1] == events[k];
    assert k + 1 < |events| ==> events[1..][k] == events[k + 1];
  }

  lemma SeenInTail(events: seq<Event>, id: string)
    requires 0 < |events|
    ensures SeenIn(events, id) <==> Sighting(events[0], id) || SeenIn(events[1..], id)
  {
    var rest := events[1..];
    if SeenIn(rest, id) {
      var k :| 0 <= k < |rest| && Sighting(rest[k], id);
      assert Sighting(events[k + 1], id);
    }
    if SeenIn(events, id) && !Sighting(events[0], id) {
      var k :| 0 <= k < |events| && Sighting(events[k], id);
      assert Sighting(rest[k - 1], id);
    }
  }

  lemma SeenTail(events: seq<Event>, id: string, deadline: int)
    requires 0 < |events|
    ensures SeenIn(events, id) <==> Sighting(events[0], id) || SeenIn(events[1..], id)
    ensures SeenAfterLateSweep(events, id, deadline) <==>
            (LateSweep(events[0], deadline) && SeenIn(events[1..], id)) || SeenAfterLateSweep(events[1..], id, deadline)
  {
    var rest := events[1..];
    SeenInTail(events, id);
    if SeenAfterLateSweep(rest, id, deadline) {
      var j, k :| 0 <= j < k < |rest| && LateSweep(rest[j], deadline) && Sighting(rest[k], id);
      assert LateSweep(events[j + 1], deadline) && Sighting(events[k + 1], id);
    }
    if LateSweep(events[0], deadline) && SeenIn(rest, id) {
      var k :| 0 <= k < |rest| && Sighting(rest[k], id);
      assert Sighting(events[k + 1], id);
    }
    if SeenAfterLateSweep(events, id, deadline) {
      var j, k :| 0 <= j < k < |events| && LateSweep(events[j], deadline) && Sighting(events[k], id);
      assert Sighting(rest[k - 1], id);
      assert 0 < j ==> LateSweep(rest[j - 1], deadline);
    }
  }

  lemma {:induction false} BackIff(t: Tracker, events: seq<Event>, id: string, since: int, gone: bool, start: int)
    requires Stands(t, id, since, gone) && since <= start && (gone ==> since + POST_FINAL_WINDOW_MS < start)
    requires Monotone(start, events) && StaysFinal(events, id)
    ensures BackInWindow(t, events, id, since + POST_FINAL_WINDOW_MS) <==>
            if gone then SeenIn(events, id) else SeenAfterLateSweep(events, id, since + POST_FINAL_WINDOW_MS)
    decreases |events|
  {
    var deadline := since + POST_FINAL_WINDOW_MS;
    forall now | deadline < now
      ensures FixturePhase(Find(t.lifecycle, id), now) != PostFinal
    {
      StandsOutside(t, id, since, gone, now);
    }
    assert events[..0] == [];
    if |events| > 0 {
      var e, rest, u := events[0], events[1..], Applied(t, events[0]);
      TailStaysFinal(events, id);
      SeenTail(events, id, deadline);
      EventMoves(t, e, id, since, gone);
      if gone && Sighting(e, id) {
        FinalPhase(u.lifecycle[id], e.at);
        assert rest[..0] == [];
        assert BackAt(u, rest, id, deadline, 0, e.at);
        BackUnshift(t, events, id, deadline, 0, e.at);
      } else {
        var gone' := gone || LateSweep(e, deadline);
        BackIff(u, rest, id, since, gone', e.at);
        if BackInWindow(t, events, id, deadline) {
          var k: nat, now: int :| BackAt(t, events, id, deadline, k, now);
          BackShift(t, events, id, deadline, k, now);
        }
        if BackInWindow(u, rest, id, deadline) {
          var k: nat, now: int :| BackAt(u, rest, id, deadline, k, now);
          if k == 0 {
            assert rest[..0] == [];
            StandsOutside(u, id, since, gone', now);
          }
          BackUnshift(t, events, id, deadline, k, now);
        }
      }
    }
  }

  ghost predicate SweptLate(events: seq<Event>, deadline: int) { exists k :: 0 <= k < |events| && LateSweep(events[k], deadline) }

  lemma SweptLateTail(events: seq<Event>, deadline: int)
    requires 0 < |events|
    ensures SweptLate(events, deadline) <==> LateSweep(events[0], deadline) || SweptLate(events[1..], deadline)
  {
    var rest := events[1..];
    if SweptLate(rest, deadline) {
      var k :| 0 <= k < |rest| && LateSweep(rest[k], deadline);
      assert LateSweep(events[k + 1], deadline);
    }
    if SweptLate(events, deadline) && !LateSweep(events[0], deadline) {
      var k :| 0 <= k < |events| && LateSweep(events[k], deadline);
      assert LateSweep(rest[k - 1], deadline);
    }
  }

  lemma {:induction false} WindowStands(t: Tracker, events: seq<Event>, id: string, since: int, gone: bool)
    requires Stands(t, id, since, gone) && StaysFinal(events, id)
    requires !(if gone then SeenIn(events, id) else SeenAfterLateSweep(events, id, since + POST_FINAL_WINDOW_MS))
    ensures Stands(After(t, events), id, since, gone || SweptLate(events, since + POST_FINAL_WINDOW_MS))
    decreases |events|
  {
    if |events| > 0 {
      var deadline := since + POST_FINAL_WINDOW_MS;
      TailStaysFinal(events, id);
      SeenTail(events, id, deadline);
      SweptLateTail(events, deadline);
      EventMoves(t, events[0], id, since, gone);
      WindowStands(Applied(t, events[0]), events[1..], id, since, gone || LateSweep(events[0], deadline));
    }
  }

  /**
    However often a finished fixture is observed again, its post-final window is counted from
    the first final sighting: it is polled as post-final up to 25 minutes after that, settled from
    then on, and dropped by the first sweep in that state; nothing brings it back but a final
    sighting after such a sweep.
  */
  lemma {:induction false} PostFinalWindowIsFixed(t: Tracker, events: seq<Event>, id: string, since: int)
    requires TrackerOk(t) && FinalSince(t, id, since) && id != "" && StaysFinal(events, id)
    requires !SeenAfterLateSweep(events, id, since + POST_FINAL_WINDOW_MS)
    ensures var u := After(t, events);
            if SweptLate(events, since + POST_FINAL_WINDOW_MS) then Gone(u, id)
            else
              && FinalSince(u, id, since)
              && (forall now :: FixturePhase(Find(u.lifecycle, id), now) == if now <= since + POST_FINAL_WINDOW_MS then PostFinal else SettledPhase)
              && (forall now :: since + POST_FINAL_WINDOW_MS < now ==> id !in Pruned(u, now).ids && id !in Pruned(u, now).lifecycle)
  {
    WindowStands(t, events, id, since, false);
    var u := After(t, events);
    if !SweptLate(events, since + POST_FINAL_WINDOW_MS) {
      forall now
        ensures FixturePhase(Find(u.lifecycle, id), now) == if now <= since + POST_FINAL_WINDOW_MS then PostFinal else SettledPhase
        ensures since + POST_FINAL_WINDOW_MS < now ==> id !in Pruned(u, now).ids && id !in Pruned(u, now).lifecycle
      {
        FinalPhase(u.lifecycle[id], now);
        KeptIdsAre(u, u.ids, now);
      }
    }
  }

  /**
    Exactly when the 25 minutes are kept: over any run of upserts and sweeps in which a fixture's
    reported status stays final, it is post-final again at some moment after its window if and
    only if a final sighting follows a sweep made after the window.
  */
  lemma {:induction false} PostFinalForGoodIff(t: Tracker, events: seq<Event>, id: string, since: int, start: int)
    requires TrackerOk(t) && FinalSince(t, id, since) && id != "" && since <= start && Monotone(start, events) && StaysFinal(events, id)
    ensures BackInWindow(t, events, id, since + POST_FINAL_WINDOW_MS) <==>
            SeenAfterLateSweep(events, id, since + POST_FINAL_WINDOW_MS)
  {
    BackIff(t, events, id, since, false, start);
  }

  function Rank(p: Phase): int {
    match p
    case Upcoming => 0
    case PreKO => 1
    case LivePhase => 2
    case PostFinal => 3
    case SettledPhase => 4
  }

  /** A known fixture belongs to exactly one phase at a time, and while its record stays, the phase only moves forward. */
  lemma PhaseOnlyAdvances(r: Lifecycle, p: Phase, now: int, q: Phase, later: int)
    requires BelongsTo(r, p, now) && now <= later
    ensures BelongsTo(r, q, now) ==> q == p
    ensures BelongsTo(r, FixturePhase(Some(r), now), now)
    ensures BelongsTo(r, q, later) ==> Rank(p) <= Rank(q)
  {
    PhaseIs(r, p, now);
    PhaseIs(r, q, now);
    PhaseIs(r, q, later);
  }
}
