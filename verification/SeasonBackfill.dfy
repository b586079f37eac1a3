/**
  The season-backfill workflow (src/workflows/season-backfill.ts): for each league-season, pull
  the standings once, discover the finalised fixtures once, then walk them under a per-run call
  budget, storing a cursor after each fixture. What the provider answers is `world`, by the
  number of the call within the run.
*/
module SeasonBackfill {
  import opened Common

  const CALLS_PER_FIXTURE: nat := 5

  /** The postures that reach this workflow, least restrictive first. */
  datatype Mode = Continue | CachedOnly | Abort

  datatype Item = Item(fixtureId: string, status: string)

  /** One call's outcome: its quota posture, whether it was served as an outage fallback, and its data if any. */
  datatype Reply = Reply(posture: Mode, outage: bool, items: Option<seq<Item>>)

  datatype Cursor = Cursor(discovered: bool, fixtureIds: seq<string>, nextIndex: nat, standingsDone: bool)

  // --------------------------------------------------------------- fixtures

  const FINALISED_STATUSES := {"FT", "AET", "PEN", "WO", "AWD"}

  predicate Wanted(item: Item) { Trim(item.fixtureId) != "" && Upper(item.status) in FINALISED_STATUSES }

  function FinalisedIds(items: seq<Item>): seq<string> {
    if |items| == 0 then []
    else
      var front, last := FinalisedIds(items[..|items| - 1]), items[|items| - 1];
      if Wanted(last) && Trim(last.fixtureId) !in front then front + [Trim(last.fixtureId)] else front
  }

  function Discovered(data: Option<seq<Item>>): seq<string> {
    if data.Some? then FinalisedIds(data.value) else []
  }

  method FinalisedFixtureIds(data: Option<seq<Item>>) returns (ids: seq<string>)
    ensures ids == Discovered(data)
  {
    ids := [];
    if data.None? {
      return;
    }
    var items := data.value;
    for i := 0 to |items|
      invariant ids == FinalisedIds(items[..i])
    {
      assert items[..i + 1][..i] == items[..i];
      if Wanted(items[i]) && Trim(items[i].fixtureId) !in ids {
        ids := ids + [Trim(items[i].fixtureId)];
      }
    }
    assert items[..|items|] == items;
  }

  /** A status that settles a fixture: "FT", "AET", "PEN", "WO" or "AWD", in any case. */
  ghost predicate SaysFinalised(status: string) {
    SameButCase(status, "FT") || SameButCase(status, "AET") || SameButCase(status, "PEN") || SameButCase(status, "WO") || SameButCase(status, "AWD")
  }

  /** The item is a settled fixture with this id, white space around it aside. */
  ghost predicate Finalises(item: Item, id: string) { |id| > 0 && Trim(item.fixtureId) == id && SaysFinalised(item.status) }

  lemma WantedIs(item: Item)
    ensures Wanted(item) <==> Finalises(item, Trim(item.fixtureId))
  {
    FoldsUp(item.status, "FT");
    FoldsUp(item.status, "AET");
    FoldsUp(item.status, "PEN");
    FoldsUp(item.status, "WO");
    FoldsUp(item.status, "AWD");
  }

  /** Each finalised fixture of the list, once. */
  lemma {:induction false} FinalisedIdsAre(items: seq<Item>)
    ensures forall id :: id in FinalisedIds(items) <==> exists item :: item in items && Finalises(item, id)
    ensures forall i, j :: 0 <= i < j < |FinalisedIds(items)| ==> FinalisedIds(items)[i] != FinalisedIds(items)[j]
  {
    if |items| > 0 {
      var front, last := items[..|items| - 1], items[|items| - 1];
      FinalisedIdsAre(front);
      WantedIs(last);
      assert items == front + [last];
      forall id
        ensures id in FinalisedIds(items) <==> id in FinalisedIds(front) || Finalises(last, id)
      {
        assert Finalises(last, id) ==> id == Trim(last.fixtureId);
      }
    }
  }

  // ------------------------------------------------------------------ calls

  function Rank(m: Mode): nat {
    match m
    case Continue => 0
    case CachedOnly => 1
    case Abort => 2
  }

  function MostRestrictive(a: Mode, b: Mode): Mode { if Rank(a) < Rank(b) then b else a }

  function After(mode: Mode, reply: Reply): Mode {
    MostRestrictive(MostRestrictive(mode, reply.posture), if reply.outage then CachedOnly else Continue)
  }

  /** `at`: provider calls of the run so far. */
  datatype Place = Place(at: nat, mode: Mode)

  /** Up to `n` calls, none after an abort. */
  function Calls(world: nat -> Reply, p: Place, n: nat): (q: Place)
    ensures p.at <= q.at <= p.at + n
    ensures n > 0 ==> p.at < q.at
    ensures q.mode != Abort ==> q.at == p.at + n
    decreases n
  {
    if n == 0 then p
    else
      var q := Place(p.at + 1, After(p.mode, world(p.at)));
      if q.mode == Abort then q else Calls(world, q, n - 1)
  }

  /** A fixture's pull: its id and how many of its five calls were made. */
  datatype Done = Done(fixtureId: string, calls: nat)

  datatype Walked = Walked(cursor: Cursor, place: Place, done: seq<Done>)

  predicate Open(c: Cursor) { c.nextIndex < |c.fixtureIds| }

  /** The fixture loop from a discovered cursor. */
  function Walk(c: Cursor, world: nat -> Reply, p: Place, max: int): Walked
    decreases |c.fixtureIds| - c.nextIndex
  {
    if !Open(c) || max <= p.at || p.mode == Abort then Walked(c, p, [])
    else
      var q := Calls(world, p, CALLS_PER_FIXTURE);
      var rest := Walk(c.(nextIndex := c.nextIndex + 1), world, q, max);
      rest.(done := [Done(c.fixtureIds[c.nextIndex], q.at - p.at)] + rest.done)
  }

  /** `stored`: the cursor the cache holds afterwards. `cursor`: the one the result is reported from. */
  datatype Visit = Visit(stored: Option<Cursor>, cursor: Option<Cursor>, place: Place, done: seq<Done>)

  predicate IsCursorComplete(c: Option<Cursor>) {
    c.Some? && c.value.discovered && |c.value.fixtureIds| <= c.value.nextIndex
  }

  function WithStandingsDone(c: Option<Cursor>): Cursor {
    if c.Some? then c.value.(standingsDone := true) else Cursor(false, [], 0, true)
  }

  function FromWalk(stored: Option<Cursor>, c: Cursor, world: nat -> Reply, p: Place, max: int): Visit {
    var w := Walk(c, world, p, max);
    Visit(if w.done == [] then stored else Some(w.cursor), Some(w.cursor), w.place, w.done)
  }

  function FromDiscovery(stored: Option<Cursor>, c: Cursor, world: nat -> Reply, p: Place, max: int): Visit {
    if c.discovered then FromWalk(stored, c, world, p, max)
    else if max <= p.at then Visit(stored, Some(c), p, [])
    else
      var q := Place(p.at + 1, After(p.mode, world(p.at)));
      if q.mode == Abort then Visit(stored, Some(c), q, [])
      else
        var found := Cursor(true, Discovered(world(p.at).items), 0, c.standingsDone);
        FromWalk(Some(found), found, world, q, max)
  }

  /** One league-season's part of a run; `max` is the run's call budget. */
  function TargetRun(stored: Option<Cursor>, world: nat -> Reply, at: nat, max: int): Visit {
    var p := Place(at, Continue);
    if stored.Some? && stored.value.standingsDone then FromDiscovery(stored, stored.value, world, p, max)
    else if max <= at then Visit(stored, stored, p, [])
    else
      var q := Place(at + 1, After(Continue, world(at)));
      if q.mode == Abort then Visit(stored, stored, q, [])
      else FromDiscovery(stored, WithStandingsDone(stored), world, q, max)
  }

  // --------------------------------------------------------------- the code

  method ProcessFixture(world: nat -> Reply, place: Place) returns (q: Place)
    requires place.mode != Abort
    ensures q == Calls(world, place, CALLS_PER_FIXTURE)
  {
    CallsUnroll(world, place);
    q := Place(place.at + 1, After(place.mode, world(place.at)));
    if q.mode == Abort {
      return;
    }
    q := Place(q.at + 1, After(q.mode, world(q.at)));
    if q.mode == Abort {
      return;
    }
    q := Place(q.at + 1, After(q.mode, world(q.at)));
    if q.mode == Abort {
      return;
    }
    q := Place(q.at + 1, After(q.mode, world(q.at)));
    if q.mode == Abort {
      return;
    }
    q := Place(q.at + 1, After(q.mode, world(q.at)));
  }

  lemma CallsUnroll(world: nat -> Reply, p: Place)
    ensures Calls(world, p, 5) ==
            var a := Place(p.at + 1, After(p.mode, world(p.at)));
            if a.mode == Abort then a
            else
              var b := Place(a.at + 1, After(a.mode, world(a.at)));
              if b.mode == Abort then b
              else
                var c := Place(b.at + 1, After(b.mode, world(b.at)));
                if c.mode == Abort then c
                else
                  var d := Place(c.at + 1, After(c.mode, world(c.at)));
                  if d.mode == Abort then d else Place(d.at + 1, After(d.mode, world(d.at)))
  {
    var a := Place(p.at + 1, After(p.mode, world(p.at)));
    var b := Place(a.at + 1, After(a.mode, world(a.at)));
    var c := Place(b.at + 1, After(b.mode, world(b.at)));
    var d := Place(c.at + 1, After(c.mode, world(c.at)));
    var e := Place(d.at + 1, After(d.mode, world(d.at)));
    assert Calls(world, e, 0) == e;
    assert Calls(world, d, 1) == e;
    assert c.mode != Abort ==> Calls(world, c, 2) == if d.mode == Abort then d else e;
    assert Calls(world, p, 5) == if a.mode == Abort then a else Calls(world, a, 4);
    assert Calls(world, a, 4) == if b.mode == Abort then b else Calls(world, b, 3);
    assert Calls(world, b, 3) == if c.mode == Abort then c else Calls(world, c, 2);
  }

  lemma WalkStep(c: Cursor, world: nat -> Reply, p: Place, max: int)
    requires Open(c) && p.at < max && p.mode != Abort
    ensures var q := Calls(world, p, CALLS_PER_FIXTURE);
            var rest := Walk(c.(nextIndex := c.nextIndex + 1), world, q, max);
            Walk(c, world, p, max) == rest.(done := [Done(c.fixtureIds[c.nextIndex], q.at - p.at)] + rest.done)
  {}

  /** What is left of the whole walk after the fixtures in `done`. */
  ghost predicate WalkedSoFar(whole: Walked, world: nat -> Reply, max: int, done: seq<Done>, c: Cursor, p: Place) {
    var rest := Walk(c, world, p, max);
    whole == Walked(rest.cursor, rest.place, done + rest.done)
  }

  lemma {:induction false} WalkedFurther(whole: Walked, world: nat -> Reply, max: int, done: seq<Done>, c: Cursor, p: Place, q: Place)
    requires WalkedSoFar(whole, world, max, done, c, p) && Open(c) && p.at < max && p.mode != Abort
    requires q == Calls(world, p, CALLS_PER_FIXTURE)
    ensures WalkedSoFar(whole, world, max, done + [Done(c.fixtureIds[c.nextIndex], q.at - p.at)], c.(nextIndex := c.nextIndex + 1), q)
  {
    WalkStep(c, world, p, max);
    var d := Done(c.fixtureIds[c.nextIndex], q.at - p.at);
    var rest := Walk(c.(nextIndex := c.nextIndex + 1), world, q, max);
    OneMoreDone(whole, Walk(c, world, p, max), rest, done, d);
  }

  lemma OneMoreDone(whole: Walked, rest: Walked, after: Walked, done: seq<Done>, d: Done)
    requires whole == Walked(rest.cursor, rest.place, done + rest.done)
    requires rest == after.(done := [d] + after.done)
    ensures whole == Walked(after.cursor, after.place, (done + [d]) + after.done)
  {
    assert done + ([d] + after.done) == (done + [d]) + after.done;
  }

  lemma WalkBegins(world: nat -> Reply, max: int, start: Cursor, from: Place) returns (whole: Walked)
    ensures whole == Walk(start, world, from, max) && WalkedSoFar(whole, world, max, [], start, from)
  {
    whole := Walk(start, world, from, max);
    assert [] + whole.done == whole.done;
  }

  lemma WalkStops(whole: Walked, world: nat -> Reply, max: int, done: seq<Done>, c: Cursor, p: Place)
    requires WalkedSoFar(whole, world, max, done, c, p) && (!Open(c) || max <= p.at || p.mode == Abort)
    ensures whole == Walked(c, p, done)
  {
    assert done + [] == done;
  }

  /** The fixture at the cursor: its calls, and the record of them. */
  method PullFixture(ghost whole: Walked, world: nat -> Reply, ghost max: int, done: seq<Done>, cursor: Cursor, place: Place)
    returns (more: seq<Done>, next: Place)
    requires WalkedSoFar(whole, world, max, done, cursor, place) && Open(cursor) && place.at < max && place.mode != Abort
    ensures WalkedSoFar(whole, world, max, more, cursor.(nextIndex := cursor.nextIndex + 1), next) && more != []
  {
    next := ProcessFixture(world, place);
    WalkedFurther(whole, world, max, done, cursor, place, next);
    more := done + [Done(cursor.fixtureIds[cursor.nextIndex], next.at - place.at)];
  }

  /** The fixture loop, storing the cursor after each fixture. */
  method WalkFixtures(stored: Option<Cursor>, start: Cursor, world: nat -> Reply, from: Place, max: int) returns (v: Visit)
    ensures v == FromWalk(stored, start, world, from, max)
  {
    var cursor, place, index := start, from, start.nextIndex;
    var cached, done := stored, [];
    ghost var whole := WalkBegins(world, max, start, from);
    while index < |cursor.fixtureIds|
      invariant index == cursor.nextIndex
      invariant WalkedSoFar(whole, world, max, done, cursor, place)
      invariant cached == if done == [] then stored else Some(cursor)
      invariant done == [] ==> cursor == start
      decreases |cursor.fixtureIds| - index
    {
      if max <= place.at || place.mode == Abort {
        break;
      }
      done, place := PullFixture(whole, world, max, done, cursor, place);
      index := index + 1;
      cursor := cursor.(nextIndex := index);
      cached := Some(cursor);
    }
    WalkStops(whole, world, max, done, cursor, place);
    v := Visit(cached, Some(cursor), place, done);
  }

  method BackfillTarget(stored: Option<Cursor>, world: nat -> Reply, at: nat, max: int) returns (v: Visit)
    ensures v == TargetRun(stored, world, at, max)
  {
    var place := Place(at, Continue);
    var cached, cursor := stored, stored;
    if cursor.None? || !cursor.value.standingsDone {
      if max <= place.at {
        return Visit(cached, cursor, place, []);
      }
      place := Place(place.at + 1, After(place.mode, world(place.at)));
      if place.mode == Abort {
        return Visit(cached, cursor, place, []);
      }
      cursor := Some(WithStandingsDone(cursor));
    }
    if !cursor.value.discovered {
      if max <= place.at {
        return Visit(cached, cursor, place, []);
      }
      var reply := world(place.at);
      place := Place(place.at + 1, After(place.mode, reply));
      if place.mode == Abort {
        return Visit(cached, cursor, place, []);
      }
      var ids := FinalisedFixtureIds(reply.items);
      cursor := Some(Cursor(true, ids, 0, cursor.value.standingsDone));
      cached := cursor;
    }
    v := WalkFixtures(cached, cursor.value, world, place, max);
  }

  // ----------------------------------------------------------- one target

  lemma {:induction false} WalkEnds(c: Cursor, world: nat -> Reply, p: Place, max: int)
    requires c.nextIndex <= |c.fixtureIds|
    ensures var w := Walk(c, world, p, max);
            && w.cursor == c.(nextIndex := c.nextIndex + |w.done|) && w.cursor.nextIndex <= |c.fixtureIds|
            && p.at <= w.place.at && (w.place.at == p.at || w.place.at < max + CALLS_PER_FIXTURE)
    decreases |c.fixtureIds| - c.nextIndex
  {
    if Open(c) && p.at < max && p.mode != Abort {
      WalkStep(c, world, p, max);
      WalkEnds(c.(nextIndex := c.nextIndex + 1), world, Calls(world, p, CALLS_PER_FIXTURE), max);
    }
  }

  /** The walk pulled the fixtures from the one cursor up to the other, in order. */
  ghost predicate PullsSlice(c: Cursor, w: Walked) {
    c.nextIndex <= w.cursor.nextIndex <= |c.fixtureIds| && Ids(w.done) == c.fixtureIds[c.nextIndex..w.cursor.nextIndex]
  }

  lemma OneMorePull(c: Cursor, rest: Walked, calls: nat)
    requires Open(c) && PullsSlice(c.(nextIndex := c.nextIndex + 1), rest)
    ensures PullsSlice(c, rest.(done := [Done(c.fixtureIds[c.nextIndex], calls)] + rest.done))
  {
    OneMoreId(c.fixtureIds, c.nextIndex, rest.cursor.nextIndex, calls, rest.done);
  }

  lemma {:induction false} WalkPulls(c: Cursor, world: nat -> Reply, p: Place, max: int)
    requires c.nextIndex <= |c.fixtureIds|
    ensures PullsSlice(c, Walk(c, world, p, max))
    decreases |c.fixtureIds| - c.nextIndex
  {
    if Open(c) && p.at < max && p.mode != Abort {
      var q := Calls(world, p, CALLS_PER_FIXTURE);
      var next := c.(nextIndex := c.nextIndex + 1);
      WalkPulls(next, world, q, max);
      WalkStep(c, world, p, max);
      OneMorePull(c, Walk(next, world, q, max), q.at - p.at);
    }
  }

  lemma {:induction false} OneMoreId(ids: seq<string>, i: nat, j: nat, calls: nat, rest: seq<Done>)
    requires i < j <= |ids| && Ids(rest) == ids[i + 1..j]
    ensures Ids([Done(ids[i], calls)] + rest) == ids[i..j]
  {
    IdsCons(Done(ids[i], calls), rest);
    assert ids[i..j] == [ids[i]] + ids[i + 1..j];
  }

  function Ids(done: seq<Done>): seq<string> {
    if |done| == 0 then [] else Ids(done[..|done| - 1]) + [done[|done| - 1].fixtureId]
  }

  lemma {:induction false} IdsCons(d: Done, rest: seq<Done>)
    ensures Ids([d] + rest) == [d.fixtureId] + Ids(rest) && |Ids(rest)| == |rest|
  {
    var all := [d] + rest;
    if |rest| == 0 {
      assert all[..0] == [];
    } else {
      IdsCons(d, rest[..|rest| - 1]);
      assert all[..|all| - 1] == [d] + rest[..|rest| - 1];
    }
  }

  lemma {:induction false} IdsConcat(a: seq<Done>, b: seq<Done>)
    ensures Ids(a + b) == Ids(a) + Ids(b) && |Ids(a)| == |a|
  {
    if |b| == 0 {
      assert a + b == a;
      IdsLength(a);
    } else {
      IdsConcat(a, b[..|b| - 1]);
      assert (a + b)[..|a + b| - 1] == a + b[..|b| - 1];
    }
  }

  lemma {:induction false} IdsLength(a: seq<Done>)
    ensures |Ids(a)| == |a|
  {
    if |a| > 0 {
      IdsLength(a[..|a| - 1]);
    }
  }

  /** What this workflow itself stores: a discovered list, standings done, an index within it. */
  predicate Live(c: Option<Cursor>) {
    c.Some? ==> c.value.discovered && c.value.standingsDone && c.value.nextIndex <= |c.value.fixtureIds|
  }

  function Start(c: Option<Cursor>): nat { if c.Some? then c.value.nextIndex else 0 }

  /** A cursor keeps its list and moves on by exactly the fixtures pulled, in order. */
  ghost predicate Moves(before: Option<Cursor>, after: Option<Cursor>, done: seq<Done>) {
    && Live(after)
    && (before.Some? ==> after.Some? && after.value.fixtureIds == before.value.fixtureIds)
    && (after.None? ==> done == [])
    && (after.Some? ==> Start(before) <= after.value.nextIndex && Ids(done) == after.value.fixtureIds[Start(before)..after.value.nextIndex])
  }

  lemma FromWalkMoves(c: Cursor, world: nat -> Reply, p: Place, max: int)
    requires Live(Some(c))
    ensures var v := FromWalk(Some(c), c, world, p, max);
            && Moves(Some(c), v.stored, v.done)
            && p.at <= v.place.at && (v.place.at == p.at || v.place.at < max + CALLS_PER_FIXTURE)
  {
    WalkEnds(c, world, p, max);
    WalkPulls(c, world, p, max);
  }

  /** A league-season with nothing stored: two calls, then the walk, or nothing stored still. */
  lemma FirstRun(world: nat -> Reply, at: nat, max: int)
    ensures var q := Place(at + 1, After(Continue, world(at)));
            var r := Place(at + 2, After(q.mode, world(at + 1)));
            var found := Cursor(true, Discovered(world(at + 1).items), 0, true);
            var v := TargetRun(None, world, at, max);
            if at + 1 < max && q.mode != Abort && r.mode != Abort then v == FromWalk(Some(found), found, world, r, max)
            else v.stored == None && v.done == [] && at <= v.place.at && (v.place.at == at || v.place.at <= max)
  {}

  /** One league-season in one run: no fixture skipped, none repeated, within the budget plus four. */
  lemma TargetMoves(stored: Option<Cursor>, world: nat -> Reply, at: nat, max: int)
    requires Live(stored)
    ensures var v := TargetRun(stored, world, at, max);
            && Moves(stored, v.stored, v.done)
            && at <= v.place.at && (v.place.at == at || v.place.at < max + CALLS_PER_FIXTURE)
  {
    if stored.Some? {
      FromWalkMoves(stored.value, world, Place(at, Continue), max);
    } else {
      FirstRun(world, at, max);
      var q := Place(at + 1, After(Continue, world(at)));
      var r := Place(at + 2, After(q.mode, world(at + 1)));
      FromWalkMoves(Cursor(true, Discovered(world(at + 1).items), 0, true), world, r, max);
    }
  }

  // ------------------------------------------------- aborts, and how many

  ghost predicate NoAbort(world: nat -> Reply) { forall k: nat :: world(k).posture != Abort }

  lemma {:induction false} CallsWithoutAbort(world: nat -> Reply, p: Place, n: nat)
    requires NoAbort(world) && p.mode != Abort
    ensures Calls(world, p, n).mode != Abort
    decreases n
  {
    if n > 0 {
      CallsWithoutAbort(world, Place(p.at + 1, After(p.mode, world(p.at))), n - 1);
    }
  }

  /** Fixtures begun when `calls` more may be, at five calls each: the last one may over-run. */
  function FixturesFor(calls: int): nat { if calls <= 0 then 0 else (calls + CALLS_PER_FIXTURE - 1) / CALLS_PER_FIXTURE }

  lemma OneFixtureLess(calls: int)
    requires 0 < calls
    ensures FixturesFor(calls) == 1 + FixturesFor(calls - CALLS_PER_FIXTURE)
  {}

  /**
    Without an abort a run pulls every fixture it begins in full, and how many it begins is
    exactly the budget left, in fives, rounded up, or all that are left. So a run over-runs its
    budget by four calls when the last fixture began with one call left: not by two, as the
    comment beside the loop has it.
  */
  lemma {:induction false} WalkCount(c: Cursor, world: nat -> Reply, p: Place, max: int)
    requires NoAbort(world) && p.mode != Abort && c.nextIndex <= |c.fixtureIds|
    ensures var w := Walk(c, world, p, max);
            && |w.done| == Min(|c.fixtureIds| - c.nextIndex, FixturesFor(max - p.at))
            && w.place.at == p.at + CALLS_PER_FIXTURE * |w.done| && w.place.mode != Abort
            && (forall i :: 0 <= i < |w.done| ==> w.done[i].calls == CALLS_PER_FIXTURE)
    decreases |c.fixtureIds| - c.nextIndex
  {
    if Open(c) && p.at < max {
      var q := Calls(world, p, CALLS_PER_FIXTURE);
      CallsWithoutAbort(world, p, CALLS_PER_FIXTURE);
      WalkCount(c.(nextIndex := c.nextIndex + 1), world, q, max);
      WalkStep(c, world, p, max);
      OneFixtureLess(max - p.at);
    }
  }

  /** The over-run of four is reached, for every budget of the form 5k + 1 on a season long enough. */
  lemma FourOverIsReached(c: Cursor, world: nat -> Reply, max: nat)
    requires NoAbort(world) && Live(Some(c)) && max % CALLS_PER_FIXTURE == 1
    requires max <= |c.fixtureIds| - c.nextIndex
    ensures TargetRun(Some(c), world, 0, max).place.at == max + 4
  {
    WalkCount(c, world, Place(0, Continue), max);
    var k := max / CALLS_PER_FIXTURE;
    assert max == CALLS_PER_FIXTURE * k + 1 && FixturesFor(max) == k + 1;
  }

  /** An abort ends the walk, and only then can a fixture be short of calls: the last one, and the cursor passes it all the same. */
  lemma {:induction false} AbortCutsTheLastFixture(c: Cursor, world: nat -> Reply, p: Place, max: int)
    requires c.nextIndex <= |c.fixtureIds|
    ensures var w := Walk(c, world, p, max);
            && (forall i :: 0 <= i < |w.done| && w.done[i].calls != CALLS_PER_FIXTURE ==> i == |w.done| - 1 && w.place.mode == Abort)
            && w.cursor.nextIndex == c.nextIndex + |w.done|
    decreases |c.fixtureIds| - c.nextIndex
  {
    if Open(c) && p.at < max && p.mode != Abort {
      var q := Calls(world, p, CALLS_PER_FIXTURE);
      var next := c.(nextIndex := c.nextIndex + 1);
      AbortCutsTheLastFixture(next, world, q, max);
      WalkStep(c, world, p, max);
      if q.mode == Abort {
        assert Walk(next, world, q, max) == Walked(next, q, []);
      }
    }
  }

  /** Whether a fixture gets all its calls: exactly when none of the first four meets a hard cap. */
  lemma {:induction false} AllCallsIff(world: nat -> Reply, p: Place, n: nat)
    requires p.mode != Abort && 0 < n
    ensures Calls(world, p, n).at == p.at + n <==> forall k: nat :: p.at <= k < p.at + n - 1 ==> world(k).posture != Abort
    decreases n
  {
    var q := Place(p.at + 1, After(p.mode, world(p.at)));
    assert q.mode == Abort <==> world(p.at).posture == Abort;
    if q.mode != Abort && n > 1 {
      AllCallsIff(world, q, n - 1);
    }
  }

  /** Some call of a stretch came with a hard cap. */
  ghost predicate Capped(world: nat -> Reply, from: nat, end: nat) { exists k: nat :: from <= k < end && world(k).posture == Abort }

  /** Some call of a stretch asked for less than going on, or was served as an outage fallback. */
  ghost predicate Strained(world: nat -> Reply, from: nat, end: nat) {
    exists k: nat :: from <= k < end && (world(k).posture != Continue || world(k).outage)
  }

  /**
    The mode after a series of calls is the most restrictive any of them asked for: an abort exactly
    if one met a hard cap, and unrestricted exactly if none asked for less and none was an outage.
  */
  lemma {:induction false} ModeIsTheWorst(world: nat -> Reply, p: Place, n: nat)
    requires p.mode != Abort
    ensures var q := Calls(world, p, n);
            && (q.mode == Abort <==> Capped(world, p.at, q.at))
            && (q.mode == Continue <==> p.mode == Continue && !Strained(world, p.at, q.at))
    decreases n
  {
    if n > 0 {
      var next := Place(p.at + 1, After(p.mode, world(p.at)));
      assert next.mode == Abort <==> world(p.at).posture == Abort;
      assert next.mode == Continue <==> p.mode == Continue && world(p.at).posture == Continue && !world(p.at).outage;
      var q := Calls(world, p, n);
      StretchStarts(world, p.at, q.at);
      if next.mode != Abort {
        ModeIsTheWorst(world, next, n - 1);
      }
    }
  }

  lemma StretchStarts(world: nat -> Reply, from: nat, end: nat)
    requires from < end
    ensures Capped(world, from, end) <==> world(from).posture == Abort || Capped(world, from + 1, end)
    ensures Strained(world, from, end) <==> world(from).posture != Continue || world(from).outage || Strained(world, from + 1, end)
  {
    if Capped(world, from, end) && world(from).posture != Abort {
      var k: nat :| from <= k < end && world(k).posture == Abort;
      assert from + 1 <= k;
    }
    if Strained(world, from, end) && world(from).posture == Continue && !world(from).outage {
      var k: nat :| from <= k < end && (world(k).posture != Continue || world(k).outage);
      assert from + 1 <= k;
    }
  }

  /** No call but the last of a stretch met a hard cap, and the last did exactly if the stretch ended in an abort. */
  ghost predicate EndsAtACap(world: nat -> Reply, from: nat, end: Place) {
    && (forall k: nat :: from <= k && k + 1 < end.at ==> world(k).posture != Abort)
    && (end.mode == Abort <==> from < end.at && world(end.at - 1).posture == Abort)
  }

  lemma EndsLater(world: nat -> Reply, from: nat, mid: Place, end: Place)
    requires from <= mid.at <= end.at && mid.mode != Abort && EndsAtACap(world, from, mid) && EndsAtACap(world, mid.at, end)
    ensures EndsAtACap(world, from, end)
  {}

  lemma OneCallEnds(world: nat -> Reply, p: Place)
    requires p.mode != Abort
    ensures EndsAtACap(world, p.at, Place(p.at + 1, After(p.mode, world(p.at))))
  {}

  lemma {:induction false} CallsEnd(world: nat -> Reply, p: Place, n: nat)
    requires p.mode != Abort
    ensures EndsAtACap(world, p.at, Calls(world, p, n))
    decreases n
  {
    if n > 0 {
      var next := Place(p.at + 1, After(p.mode, world(p.at)));
      OneCallEnds(world, p);
      if next.mode != Abort {
        CallsEnd(world, next, n - 1);
        EndsLater(world, p.at, next, Calls(world, p, n));
      }
    }
  }

  lemma {:induction false} WalkEndsAtACap(c: Cursor, world: nat -> Reply, p: Place, max: int)
    requires p.mode != Abort
    ensures p.at <= Walk(c, world, p, max).place.at && EndsAtACap(world, p.at, Walk(c, world, p, max).place)
    decreases |c.fixtureIds| - c.nextIndex
  {
    if Open(c) && p.at < max {
      var q := Calls(world, p, CALLS_PER_FIXTURE);
      WalkStep(c, world, p, max);
      CallsEnd(world, p, CALLS_PER_FIXTURE);
      var next := c.(nextIndex := c.nextIndex + 1);
      if q.mode == Abort {
        assert Walk(next, world, q, max) == Walked(next, q, []);
      } else {
        WalkEndsAtACap(next, world, q, max);
        EndsLater(world, p.at, q, Walk(next, world, q, max).place);
      }
    }
  }

  lemma DiscoveryEnds(stored: Option<Cursor>, c: Cursor, world: nat -> Reply, p: Place, max: int)
    requires p.mode != Abort
    ensures var v := FromDiscovery(stored, c, world, p, max); p.at <= v.place.at && EndsAtACap(world, p.at, v.place)
  {
    if c.discovered {
      WalkEndsAtACap(c, world, p, max);
    } else if p.at < max {
      var q := Place(p.at + 1, After(p.mode, world(p.at)));
      OneCallEnds(world, p);
      if q.mode != Abort {
        var found := Cursor(true, Discovered(world(p.at).items), 0, c.standingsDone);
        WalkEndsAtACap(found, world, q, max);
        EndsLater(world, p.at, q, Walk(found, world, q, max).place);
      }
    }
  }

  /** Whatever is stored, a league-season's run makes no call after one that met a hard cap, and aborts exactly if one did. */
  lemma NoneAfterAHardCap(stored: Option<Cursor>, world: nat -> Reply, at: nat, max: int)
    ensures var v := TargetRun(stored, world, at, max); at <= v.place.at && EndsAtACap(world, at, v.place)
  {
    var p := Place(at, Continue);
    if stored.Some? && stored.value.standingsDone {
      DiscoveryEnds(stored, stored.value, world, p, max);
    } else if at < max {
      var q := Place(at + 1, After(Continue, world(at)));
      OneCallEnds(world, p);
      if q.mode != Abort {
        DiscoveryEnds(stored, WithStandingsDone(stored), world, q, max);
        EndsLater(world, at, q, FromDiscovery(stored, WithStandingsDone(stored), world, q, max).place);
      }
    }
  }

  /** A stored list whose standings are missing is walked from its index once they have been pulled. */
  lemma StandingsThenResume(c: Cursor, world: nat -> Reply, at: nat, max: int)
    requires c.discovered && !c.standingsDone && c.nextIndex <= |c.fixtureIds| && at < max && world(at).posture != Abort
    ensures var v := TargetRun(Some(c), world, at, max);
            && v.cursor.Some? && v.cursor.value.fixtureIds == c.fixtureIds && v.cursor.value.standingsDone
            && c.nextIndex <= v.cursor.value.nextIndex <= |c.fixtureIds|
            && Ids(v.done) == c.fixtureIds[c.nextIndex..v.cursor.value.nextIndex]
  {
    var q := Place(at + 1, After(Continue, world(at)));
    assert q.mode == Abort <==> world(at).posture == Abort;
    var ready := c.(standingsDone := true);
    WalkEnds(ready, world, q, max);
    WalkPulls(ready, world, q, max);
  }

  /** A reply that holds a finalised fixture. */
  ghost predicate HoldsFinalised(data: Option<seq<Item>>) {
    data.Some? && exists item, id :: item in data.value && Finalises(item, id)
  }

  lemma DiscoveredIsEmptyIff(data: Option<seq<Item>>)
    ensures Discovered(data) == [] <==> !HoldsFinalised(data)
  {
    if data.Some? {
      FinalisedIdsAre(data.value);
      if HoldsFinalised(data) {
        var item, id :| item in data.value && Finalises(item, id);
        assert id in FinalisedIds(data.value);
      }
      if Discovered(data) != [] {
        assert FinalisedIds(data.value)[0] in FinalisedIds(data.value);
      }
    }
  }

  /**
    A first run that gets through its discovery leaves a complete season with nothing pulled
    exactly when the reply held no finalised fixture, data or not.
  */
  lemma NothingPulledIffNothingDiscovered(world: nat -> Reply, max: int)
    requires 2 <= max && world(0).posture != Abort && world(1).posture != Abort
    ensures var v := TargetRun(None, world, 0, max);
            && v.stored.Some?
            && (IsCursorComplete(v.stored) && v.done == [] <==> !HoldsFinalised(world(1).items))
  {
    FirstRun(world, 0, max);
    DiscoveredIsEmptyIff(world(1).items);
    var q := Place(1, After(Continue, world(0)));
    var r := Place(2, After(q.mode, world(1)));
    FromWalkMoves(Cursor(true, Discovered(world(1).items), 0, true), world, r, max);
  }

  /** With a budget of one call the standings take it and nothing is stored, run after run. */
  lemma OneCallNeverDiscovers(world: nat -> Reply, max: int)
    requires max <= 1
    ensures TargetRun(None, world, 0, max).stored == None
  {}
}
