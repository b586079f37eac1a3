/**
  The injuries player digest (src/workflows/provider-enrichment-units.ts). Each pull of a
  league's injuries merges its sightings into a cached digest that keeps one time per player
  and forgets players past the lookback; the sidelined scope is read from the digests.
*/
module InjuryDigest {
  import opened Common
  import opened ProviderCache

  const DAY_MS := 24 * 60 * 60 * 1_000
  const SIDELINED_LOOKBACK_MS := 30 * DAY_MS
  const INJURY_DIGEST_TTL_SECONDS := 31 * 24 * 60 * 60

  /** The start of the lookback at `nowMs`. */
  function Since(nowMs: int): int { nowMs - SIDELINED_LOOKBACK_MS }

  datatype LeagueSeason = LeagueSeason(leagueId: nat, season: nat)

  datatype Sighting = Sighting(player: string, fixtureAtMs: int)

  /** The latest kept sighting of each player. */
  type Digest = map<string, int>

  // ---------------------------------------------------------------- merging

  function Put(players: Digest, id: string, ms: int, since: int): Digest {
    if since <= ms && (id !in players || players[id] < ms) then players[id := ms] else players
  }

  function PutAll(players: Digest, sightings: seq<Sighting>, since: int): Digest {
    if |sightings| == 0 then players
    else
      var last := sightings[|sightings| - 1];
      Put(PutAll(players, sightings[..|sightings| - 1], since), last.player, last.fixtureAtMs, since)
  }

  function Recent(players: Digest, since: int): Digest {
    map id | id in players && since <= players[id] :: players[id]
  }

  function Players(digest: Option<Digest>): Digest {
    if digest.Some? then digest.value else map[]
  }

  function Merged(previous: Option<Digest>, sightings: seq<Sighting>, nowMs: int): Digest {
    PutAll(Recent(Players(previous), Since(nowMs)), sightings, Since(nowMs))
  }

  /** `Recent` of the players an iteration has visited; `left` are still to come. */
  ghost function PartlyRecent(players: Digest, left: set<string>, since: int): Digest {
    map id | id in players && id !in left && since <= players[id] :: players[id]
  }

  method MergeInjuryDigest(previous: Option<Digest>, sightings: seq<Sighting>, nowMs: int) returns (players: Digest)
    ensures players == Merged(previous, sightings, nowMs)
  {
    var since := Since(nowMs);
    players := map[];
    var stored := Players(previous);
    var left := stored.Keys;
    while left != {}
      invariant left <= stored.Keys
      invariant players == PartlyRecent(stored, left, since)
      decreases |left|
    {
      var id := Pick(left);
      players := Put(players, id, stored[id], since);
      left := left - {id};
    }
    for i := 0 to |sightings|
      invariant players == PutAll(Recent(stored, since), sightings[..i], since)
    {
      assert sightings[..i + 1][..i] == sightings[..i];
      players := Put(players, sightings[i].player, sightings[i].fixtureAtMs, since);
    }
    assert sightings[..|sightings|] == sightings;
  }

  /** A merge is told about this time for this player. */
  predicate Mentions(previous: Digest, sightings: seq<Sighting>, id: string, ms: int) {
    (id in previous && previous[id] == ms) || Sighting(id, ms) in sightings
  }

  /** `d` keeps, for each player, the latest mentioned time at or after `since`, and nothing else. */
  ghost predicate LatestOf(d: Digest, previous: Digest, sightings: seq<Sighting>, since: int) {
    && (forall id :: id in d ==> Mentions(previous, sightings, id, d[id]) && since <= d[id])
    && (forall id, ms :: Mentions(previous, sightings, id, ms) && since <= ms ==> id in d && ms <= d[id])
  }

  lemma {:induction false} PutAllIsLatest(players: Digest, sightings: seq<Sighting>, since: int)
    requires forall id :: id in players ==> since <= players[id]
    ensures LatestOf(PutAll(players, sightings, since), players, sightings, since)
  {
    if |sightings| > 0 {
      var front, last := sightings[..|sightings| - 1], sightings[|sightings| - 1];
      PutAllIsLatest(players, front, since);
      forall id, ms
        ensures Mentions(players, sightings, id, ms) <==> Mentions(players, front, id, ms) || last == Sighting(id, ms)
      {
        MentionsAppend(players, front, last, id, ms);
        assert sightings == front + [last];
      }
    }
  }

  lemma MentionsAppend(players: Digest, sightings: seq<Sighting>, last: Sighting, id: string, ms: int)
    ensures Mentions(players, sightings + [last], id, ms) <==> Mentions(players, sightings, id, ms) || last == Sighting(id, ms)
  {}

  /**
    The merge keeps, for each player, the latest time at or after the lookback that the stored
    digest or the pull mentions, and nothing else.
  */
  lemma MergeKeepsLatest(previous: Option<Digest>, sightings: seq<Sighting>, nowMs: int)
    ensures LatestOf(Merged(previous, sightings, nowMs), Players(previous), sightings, nowMs - 2_592_000_000)
  {
    var since := Since(nowMs);
    var recent := Recent(Players(previous), since);
    PutAllIsLatest(recent, sightings, since);
    forall id, ms | Mentions(Players(previous), sightings, id, ms) && since <= ms
      ensures Mentions(recent, sightings, id, ms)
    {}
    var d := PutAll(recent, sightings, since);
    assert d == Merged(previous, sightings, nowMs);
    forall id | id in d
      ensures Mentions(Players(previous), sightings, id, d[id]) && since <= d[id]
    {
      assert Mentions(recent, sightings, id, d[id]);
    }
  }

  // ---------------------------------------------------------- pulls and scope

  /** One injuries pull whose rows were ingested. `sweep`: whether a cache sweep was due. */
  datatype Pull = Pull(league: LeagueSeason, nowMs: int, sweep: bool, sightings: seq<Sighting>)

  type Digests = Entries<LeagueSeason, Digest>

  function After(digests: Digests, pull: Pull): Digests {
    var merged := Merged(Lookup(digests, pull.league, pull.nowMs), pull.sightings, pull.nowMs);
    Stored(digests, pull.sweep, pull.league, merged, INJURY_DIGEST_TTL_SECONDS, pull.nowMs)
  }

  function Run(pulls: seq<Pull>): Digests {
    if |pulls| == 0 then map[] else After(Run(pulls[..|pulls| - 1]), pulls[|pulls| - 1])
  }

  method RecordPull(cache: InMemoryProviderCache<LeagueSeason, Digest>, league: LeagueSeason, sightings: seq<Sighting>, nowMs: int)
    modifies cache
    ensures forall key, t :: nowMs <= t ==>
      Lookup(cache.entries, key, t) == Lookup(After(old(cache.entries), Pull(league, nowMs, false, sightings)), key, t)
  {
    var previous := cache.Get(league, nowMs);
    var digest := MergeInjuryDigest(previous, sightings, nowMs);
    cache.Set(league, digest, INJURY_DIGEST_TTL_SECONDS, nowMs);
  }

  /** `id` is listed in this league's digest within the lookback. */
  predicate Listed(digests: Digests, league: LeagueSeason, nowMs: int, id: string) {
    var players := Players(Lookup(digests, league, nowMs));
    id in players && Since(nowMs) <= players[id]
  }

  method SidelinedScopeFromDigests(cache: InMemoryProviderCache<LeagueSeason, Digest>, targets: seq<LeagueSeason>, nowMs: int)
    returns (ids: set<string>)
    modifies cache
    ensures forall id :: id in ids <==> exists k :: 0 <= k < |targets| && Listed(old(cache.entries), targets[k], nowMs, id)
    ensures forall key, t :: nowMs <= t ==> Lookup(cache.entries, key, t) == Lookup(old(cache.entries), key, t)
  {
    ids := {};
    for i := 0 to |targets|
      invariant forall id :: id in ids <==> exists k :: 0 <= k < i && Listed(old(cache.entries), targets[k], nowMs, id)
      invariant forall key, t :: nowMs <= t ==> Lookup(cache.entries, key, t) == Lookup(old(cache.entries), key, t)
    {
      var digest := cache.Get(targets[i], nowMs);
      var listed := RecentIds(Players(digest), Since(nowMs));
      ids := ids + listed;
    }
  }

  method RecentIds(players: Digest, since: int) returns (ids: set<string>)
    ensures ids == Recent(players, since).Keys
  {
    ids := {};
    var left := players.Keys;
    while left != {}
      invariant left <= players.Keys
      invariant ids == PartlyRecent(players, left, since).Keys
      decreases |left|
    {
      var id := Pick(left);
      if players[id] >= since {
        ids := ids + {id};
      }
      left := left - {id};
    }
  }

  // ------------------------------------------------------------- the theorem

  ghost predicate InOrder(pulls: seq<Pull>) {
    forall i, j :: 0 <= i < j < |pulls| ==> pulls[i].nowMs <= pulls[j].nowMs
  }

  /** What pull `i` wrote for `league` is still in the digest at time `t`: no copy of it expired on the way. */
  predicate Alive(pulls: seq<Pull>, i: nat, league: LeagueSeason, t: int)
    requires i < |pulls|
  {
    var front, last := pulls[..|pulls| - 1], pulls[|pulls| - 1];
    if last.league == league then
      t < last.nowMs + INJURY_DIGEST_TTL_SECONDS * 1_000 && (i == |front| || Alive(front, i, league, last.nowMs))
    else i < |front| && Alive(front, i, league, t)
  }

  /** Pull `i` of this league saw `id` at or after `floor`. */
  ghost predicate Saw(pulls: seq<Pull>, i: nat, league: LeagueSeason, id: string, floor: int)
    requires i < |pulls|
  {
    pulls[i].league == league && exists s :: s in pulls[i].sightings && s.player == id && floor <= s.fixtureAtMs
  }

  ghost predicate SawAlive(pulls: seq<Pull>, i: nat, league: LeagueSeason, t: int, id: string, floor: int) {
    i < |pulls| && Saw(pulls, i, league, id, floor) && Alive(pulls, i, league, t)
  }

  ghost predicate Holds(digest: Option<Digest>, id: string, floor: int) {
    digest.Some? && id in digest.value && floor <= digest.value[id]
  }

  lemma MergedHolds(previous: Option<Digest>, sightings: seq<Sighting>, nowMs: int, id: string, floor: int)
    requires Since(nowMs) <= floor
    ensures Holds(Some(Merged(previous, sightings, nowMs)), id, floor) <==>
            Holds(previous, id, floor) || exists s :: s in sightings && s.player == id && floor <= s.fixtureAtMs
  {
    MergeKeepsLatest(previous, sightings, nowMs);
    var d := Merged(previous, sightings, nowMs);
    if Holds(Some(d), id, floor) {
      assert Mentions(Players(previous), sightings, id, d[id]);
      if !Holds(previous, id, floor) {
        assert Sighting(id, d[id]) in sightings;
      }
    }
    if Holds(previous, id, floor) {
      assert Mentions(Players(previous), sightings, id, previous.value[id]);
    }
    forall s | s in sightings && s.player == id && floor <= s.fixtureAtMs
      ensures Holds(Some(d), id, floor)
    {
      assert Mentions(Players(previous), sightings, id, s.fixtureAtMs);
    }
  }

  /** The stored digest answers, for any time not yet dropped, exactly what the surviving pulls saw. */
  lemma {:induction false} DigestHolds(pulls: seq<Pull>, league: LeagueSeason, t: int, id: string, floor: int)
    requires InOrder(pulls)
    requires forall i :: 0 <= i < |pulls| ==> pulls[i].nowMs <= t && Since(pulls[i].nowMs) <= floor
    ensures Holds(Lookup(Run(pulls), league, t), id, floor) <==> exists i :: SawAlive(pulls, i, league, t, id, floor)
    decreases |pulls|
  {
    if |pulls| > 0 {
      var n := |pulls| - 1;
      var front, last := pulls[..n], pulls[n];
      var merged := Merged(Lookup(Run(front), last.league, last.nowMs), last.sightings, last.nowMs);
      LookupStored(Run(front), last.sweep, last.league, merged, INJURY_DIGEST_TTL_SECONDS, last.nowMs, league, t);
      var at := if last.league == league then last.nowMs else t;
      DigestHolds(front, league, at, id, floor);
      StepAlive(pulls, league, t, id, floor);
      if last.league == league {
        MergedHolds(Lookup(Run(front), league, last.nowMs), last.sightings, last.nowMs, id, floor);
      }
    }
  }

  lemma StepAlive(pulls: seq<Pull>, league: LeagueSeason, t: int, id: string, floor: int)
    requires 0 < |pulls|
    ensures var n := |pulls| - 1; var front, last := pulls[..n], pulls[n];
            (exists i :: SawAlive(pulls, i, league, t, id, floor)) <==>
            if last.league == league then
              t < last.nowMs + INJURY_DIGEST_TTL_SECONDS * 1_000 && (Saw(pulls, n, league, id, floor) || exists i :: SawAlive(front, i, league, last.nowMs, id, floor))
            else exists i :: SawAlive(front, i, league, t, id, floor)
  {
    var n := |pulls| - 1;
    var front, last := pulls[..n], pulls[n];
    var at := if last.league == league then last.nowMs else t;
    forall i: nat | i < n
      ensures SawAlive(pulls, i, league, t, id, floor) <==>
              SawAlive(front, i, league, at, id, floor) && (last.league == league ==> t < last.nowMs + INJURY_DIGEST_TTL_SECONDS * 1_000)
    {
      assert front[i] == pulls[i];
    }
    assert SawAlive(pulls, n, league, t, id, floor) <==>
           last.league == league && t < last.nowMs + INJURY_DIGEST_TTL_SECONDS * 1_000 && Saw(pulls, n, league, id, floor);
  }

  /**
    The scope, for every history of pulls: a player is listed at `t` exactly when some pull that
    the digest has not outlived saw the player within the lookback of `t`, although every merge
    dropped players and kept one time each.
  */
  lemma {:induction false} ScopeIsHistory(pulls: seq<Pull>, league: LeagueSeason, t: int, id: string)
    requires InOrder(pulls) && forall i :: 0 <= i < |pulls| ==> pulls[i].nowMs <= t
    ensures var since := t - 2_592_000_000;
            Listed(Run(pulls), league, t, id) <==> exists i :: SawAlive(pulls, i, league, t, id, since)
  {
    DigestHolds(pulls, league, t, id, Since(t));
  }

  /** Pull `i` is followed within the digest's TTL by the query at `t` or by another pull of its league. */
  ghost predicate Followed(pulls: seq<Pull>, i: nat, t: int)
    requires i < |pulls|
  {
    || t < pulls[i].nowMs + INJURY_DIGEST_TTL_SECONDS * 1_000
    || exists j :: i < j < |pulls| && pulls[j].league == pulls[i].league && pulls[j].nowMs < pulls[i].nowMs + INJURY_DIGEST_TTL_SECONDS * 1_000
  }

  /** No gap between the pulls of a league, or between the last of them and the query, reaches the TTL. */
  ghost predicate PulledOften(pulls: seq<Pull>, league: LeagueSeason, t: int) {
    forall i :: 0 <= i < |pulls| && pulls[i].league == league ==> Followed(pulls, i, t)
  }

  ghost predicate AllAlive(pulls: seq<Pull>, league: LeagueSeason, t: int) {
    forall i :: 0 <= i < |pulls| && pulls[i].league == league ==> Alive(pulls, i, league, t)
  }

  /** Without the last pull, gaps are measured up to it if it is of the league. */
  lemma OftenWithoutLast(pulls: seq<Pull>, league: LeagueSeason, t: int)
    requires 0 < |pulls| && InOrder(pulls) && pulls[|pulls| - 1].nowMs <= t
    ensures var n := |pulls| - 1; var last := pulls[n];
            PulledOften(pulls, league, t) <==>
            if last.league == league then t < last.nowMs + INJURY_DIGEST_TTL_SECONDS * 1_000 && PulledOften(pulls[..n], league, last.nowMs)
            else PulledOften(pulls[..n], league, t)
  {
    var n := |pulls| - 1;
    var front, last := pulls[..n], pulls[n];
    var at := if last.league == league then last.nowMs else t;
    forall i | 0 <= i < n && pulls[i].league == league
      ensures Followed(front, i, at) ==> Followed(pulls, i, t)
      ensures Followed(pulls, i, t) ==> Followed(front, i, at)
    {
      if j :| i < j < n && front[j].league == front[i].league && front[j].nowMs < front[i].nowMs + INJURY_DIGEST_TTL_SECONDS * 1_000 {
        assert pulls[j] == front[j];
      }
      if j :| i < j < |pulls| && pulls[j].league == pulls[i].league && pulls[j].nowMs < pulls[i].nowMs + INJURY_DIGEST_TTL_SECONDS * 1_000 {
        assert j < n ==> front[j] == pulls[j];
      }
      assert last == pulls[n];
    }
    assert forall i :: 0 <= i < n ==> front[i] == pulls[i];
  }

  lemma AliveWithoutLast(pulls: seq<Pull>, league: LeagueSeason, t: int)
    requires 0 < |pulls|
    ensures var n := |pulls| - 1; var last := pulls[n];
            AllAlive(pulls, league, t) <==>
            if last.league == league then t < last.nowMs + INJURY_DIGEST_TTL_SECONDS * 1_000 && AllAlive(pulls[..n], league, last.nowMs)
            else AllAlive(pulls[..n], league, t)
  {
    var n := |pulls| - 1;
    var front, last := pulls[..n], pulls[n];
    assert forall i :: 0 <= i < n ==> front[i] == pulls[i];
    assert last.league == league ==> (Alive(pulls, n, league, t) <==> t < last.nowMs + INJURY_DIGEST_TTL_SECONDS * 1_000);
  }

  /** Every pull of the league is still in its digest at `t` exactly when none of the gaps reaches the TTL. */
  lemma {:induction false} AllAliveIffPulledOften(pulls: seq<Pull>, league: LeagueSeason, t: int)
    requires InOrder(pulls) && forall i :: 0 <= i < |pulls| ==> pulls[i].nowMs <= t
    ensures AllAlive(pulls, league, t) <==> PulledOften(pulls, league, t)
    decreases |pulls|
  {
    if |pulls| > 0 {
      var n := |pulls| - 1;
      OftenWithoutLast(pulls, league, t);
      AliveWithoutLast(pulls, league, t);
      AllAliveIffPulledOften(pulls[..n], league, if pulls[n].league == league then pulls[n].nowMs else t);
    }
  }

  /** Pulled often enough, nothing of the history is lost. */
  lemma {:induction false} OftenPulledScopeIsFullHistory(pulls: seq<Pull>, league: LeagueSeason, t: int, id: string)
    requires InOrder(pulls) && forall i :: 0 <= i < |pulls| ==> pulls[i].nowMs <= t
    requires PulledOften(pulls, league, t)
    ensures Listed(Run(pulls), league, t, id) <==>
            exists i :: 0 <= i < |pulls| && Saw(pulls, i, league, id, Since(t))
  {
    ScopeIsHistory(pulls, league, t, id);
    AllAliveIffPulledOften(pulls, league, t);
    forall i | 0 <= i < |pulls| && Saw(pulls, i, league, id, Since(t))
      ensures SawAlive(pulls, i, league, t, id, Since(t))
    {}
  }

  /** Every kickoff a pull lists is less than `lead` after the pull. */
  ghost predicate LeadBelow(pulls: seq<Pull>, lead: int) {
    forall i, s :: 0 <= i < |pulls| && s in pulls[i].sightings ==> s.fixtureAtMs < pulls[i].nowMs + lead
  }

  lemma {:induction false} AliveWithinTtl(pulls: seq<Pull>, i: nat, league: LeagueSeason, t: int)
    requires i < |pulls| && pulls[i].league == league && InOrder(pulls)
    requires forall j :: 0 <= j < |pulls| ==> pulls[j].nowMs <= t
    requires t < pulls[i].nowMs + INJURY_DIGEST_TTL_SECONDS * 1_000
    ensures Alive(pulls, i, league, t)
    decreases |pulls|
  {
    var n := |pulls| - 1;
    if i < n {
      var at := if pulls[n].league == league then pulls[n].nowMs else t;
      AliveWithinTtl(pulls[..n], i, league, at);
    }
  }

  /**
    The day by which the digest outlives the lookback is what makes expiry harmless: with every
    kickoff less than a day ahead of its pull, the scope is the full history's, whatever the gaps.
  */
  lemma {:induction false} ADayAheadIsNeverLost(pulls: seq<Pull>, league: LeagueSeason, t: int, id: string)
    requires InOrder(pulls) && forall i :: 0 <= i < |pulls| ==> pulls[i].nowMs <= t
    requires LeadBelow(pulls, DAY_MS)
    ensures Listed(Run(pulls), league, t, id) <==>
            exists i :: 0 <= i < |pulls| && Saw(pulls, i, league, id, Since(t))
  {
    ScopeIsHistory(pulls, league, t, id);
    forall i | 0 <= i < |pulls| && Saw(pulls, i, league, id, Since(t))
      ensures SawAlive(pulls, i, league, t, id, Since(t))
    {
      AliveWithinTtl(pulls, i, league, t);
    }
  }

  /** And a day is the most it can be: one kickoff exactly a day ahead can be forgotten while still in the lookback. */
  lemma ALongerLeadCanBeLost(league: LeagueSeason, id: string, nowMs: int)
    ensures exists pulls: seq<Pull>, t: int ::
      && LeadBelow(pulls, DAY_MS + 1) && InOrder(pulls) && |pulls| == 1 && pulls[0].nowMs <= t
      && Saw(pulls, 0, league, id, Since(t)) && !Listed(Run(pulls), league, t, id)
  {
    var s := Sighting(id, nowMs + DAY_MS);
    var pulls := [Pull(league, nowMs, false, [s])];
    var t := nowMs + 31 * DAY_MS;
    assert s in pulls[0].sightings;
    ScopeIsHistory(pulls, league, t, id);
    assert Saw(pulls, 0, league, id, Since(t));
    assert LeadBelow(pulls, DAY_MS + 1);
    assert !Listed(Run(pulls), league, t, id);
  }
}
