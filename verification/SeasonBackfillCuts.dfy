/**
  Season-backfill runs cut short (src/workflows/season-backfill.ts). A fixture's pull and the write
  of the cursor behind it are separate awaits: a process that dies, or a cache write that throws,
  between them leaves the pull done and the cursor where it was. A run is the sequence of its
  effects, and a cut run is any beginning of it: `Pull` stands for the first of a fixture's calls,
  so a cut behind it is a cut anywhere from there to the landed write; a write that lands and
  throws is a cut behind the `Save`.
*/
module SeasonBackfillCuts {
  import opened Common
  import opened SeasonBackfill
  import opened SeasonBackfillRuns

  datatype Effect = Pull(t: Target, fixtureId: string) | Save(t: Target, cursor: Cursor)

  // ------------------------------------------------------ the effects of a run

  function WalkEffects(t: Target, c: Cursor, world: nat -> Reply, p: Place, max: int): seq<Effect>
    decreases |c.fixtureIds| - c.nextIndex
  {
    if !Open(c) || max <= p.at || p.mode == Abort then []
    else
      var next := c.(nextIndex := c.nextIndex + 1);
      [Pull(t, c.fixtureIds[c.nextIndex]), Save(t, next)] + WalkEffects(t, next, world, Calls(world, p, CALLS_PER_FIXTURE), max)
  }

  function DiscoveryEffects(t: Target, c: Cursor, world: nat -> Reply, p: Place, max: int): seq<Effect> {
    if c.discovered then WalkEffects(t, c, world, p, max)
    else if max <= p.at then []
    else
      var q := Place(p.at + 1, After(p.mode, world(p.at)));
      if q.mode == Abort then []
      else
        var found := Cursor(true, Discovered(world(p.at).items), 0, c.standingsDone);
        [Save(t, found)] + WalkEffects(t, found, world, q, max)
  }

  function TargetEffects(t: Target, stored: Option<Cursor>, world: nat -> Reply, at: nat, max: int): seq<Effect> {
    var p := Place(at, Continue);
    if stored.Some? && stored.value.standingsDone then DiscoveryEffects(t, stored.value, world, p, max)
    else if max <= at then []
    else
      var q := Place(at + 1, After(Continue, world(at)));
      if q.mode == Abort then [] else DiscoveryEffects(t, WithStandingsDone(stored), world, q, max)
  }

  function RunEffects(r: Run, targets: seq<Target>, world: nat -> Reply, max: int): seq<Effect>
    decreases |targets|
  {
    if |targets| == 0 then []
    else
      (if r.stop == Going then TargetEffects(targets[0], Read(r.store, targets[0], false), world, r.at, max) else []) +
      RunEffects(Step(r, targets[0], false, world, max), targets[1..], world, max)
  }

  /** The cursors in the cache after these effects. */
  function Saved(store: Store, effects: seq<Effect>): Store
    decreases |effects|
  {
    if |effects| == 0 then store
    else Saved(if effects[0].Save? then store[effects[0].t := effects[0].cursor] else store, effects[1..])
  }

  /** The fixtures of `t` whose pull was begun. */
  function PullsOf(effects: seq<Effect>, t: Target): seq<string>
    decreases |effects|
  {
    if |effects| == 0 then []
    else (if effects[0].Pull? && effects[0].t == t then [effects[0].fixtureId] else []) + PullsOf(effects[1..], t)
  }

  /** Cut between a pull of `t` and the landed write of its cursor. */
  predicate CutBetween(effects: seq<Effect>, t: Target) {
    |effects| > 0 && effects[|effects| - 1].Pull? && effects[|effects| - 1].t == t
  }

  predicate EndsInPull(effects: seq<Effect>) { |effects| > 0 && effects[|effects| - 1].Pull? }

  // --------------------------------------------------- what effects look like

  ghost predicate DistinctIds(ids: seq<string>) { forall i, j :: 0 <= i < j < |ids| ==> ids[i] != ids[j] }

  function Bumped(c: Cursor): Cursor { c.(nextIndex := c.nextIndex + 1) }

  /**
    Effects a run can have from these cursors, whole or cut: a discovery is saved where nothing
    was, a pull is of the fixture at the stored cursor, and only the save of the next cursor, or a
    cut, can follow a pull.
  */
  ghost predicate Follows(store: Store, effects: seq<Effect>)
    decreases |effects|
  {
    |effects| == 0 ||
    match effects[0]
    case Save(t, c) =>
      && t !in store && c == Cursor(true, c.fixtureIds, 0, true) && DistinctIds(c.fixtureIds)
      && Follows(store[t := c], effects[1..])
    case Pull(t, id) =>
      && t in store && Open(store[t]) && id == store[t].fixtureIds[store[t].nextIndex]
      && (|effects| > 1 ==> effects[1] == Save(t, Bumped(store[t])) && Follows(store[t := Bumped(store[t])], effects[2..]))
  }

  lemma {:induction false} CutFollows(store: Store, effects: seq<Effect>, n: nat)
    requires Follows(store, effects) && n <= |effects|
    ensures Follows(store, effects[..n])
    decreases |effects|
  {
    if 0 < n {
      match effects[0]
      case Save(t, c) =>
        CutFollows(store[t := c], effects[1..], n - 1);
        assert effects[..n][1..] == effects[1..][..n - 1];
      case Pull(t, id) =>
        if 1 < n {
          CutFollows(store[t := Bumped(store[t])], effects[2..], n - 2);
          assert effects[..n][2..] == effects[2..][..n - 2];
        }
    }
  }

  /** A pull and its save, taken together. */
  lemma PairUnrolls(store: Store, effects: seq<Effect>)
    requires 1 < |effects| && effects[0].Pull? && effects[1].Save?
    ensures Saved(store, effects) == Saved(store[effects[1].t := effects[1].cursor], effects[2..])
    ensures EndsInPull(effects) <==> EndsInPull(effects[2..])
    ensures forall u :: PullsOf(effects, u) == (if u == effects[0].t then [effects[0].fixtureId] else []) + PullsOf(effects[2..], u)
    ensures forall u :: CutBetween(effects, u) <==> CutBetween(effects[2..], u)
  {
    assert effects[1..][1..] == effects[2..];
    forall u
      ensures PullsOf(effects, u) == (if u == effects[0].t then [effects[0].fixtureId] else []) + PullsOf(effects[2..], u)
    {
      assert PullsOf(effects[1..], u) == [] + PullsOf(effects[2..], u);
    }
  }

  lemma {:induction false} FollowsOn(store: Store, a: seq<Effect>, b: seq<Effect>)
    requires Follows(store, a) && !EndsInPull(a) && Follows(Saved(store, a), b)
    ensures Follows(store, a + b)
    decreases |a|
  {
    if |a| == 0 {
      assert a + b == b;
    } else {
      match a[0]
      case Save(t, c) =>
        assert (a + b)[1..] == a[1..] + b;
        FollowsOn(store[t := c], a[1..], b);
      case Pull(t, id) =>
        assert (a + b)[2..] == a[2..] + b;
        PairUnrolls(store, a);
        FollowsOn(store[t := Bumped(store[t])], a[2..], b);
    }
  }

  lemma {:induction false} SavedOn(store: Store, a: seq<Effect>, b: seq<Effect>)
    ensures Saved(store, a + b) == Saved(Saved(store, a), b)
    decreases |a|
  {
    if |a| == 0 {
      assert a + b == b;
    } else {
      assert (a + b)[1..] == a[1..] + b;
      SavedOn(if a[0].Save? then store[a[0].t := a[0].cursor] else store, a[1..], b);
    }
  }

  lemma {:induction false} PullsOn(a: seq<Effect>, b: seq<Effect>, t: Target)
    ensures PullsOf(a + b, t) == PullsOf(a, t) + PullsOf(b, t)
    decreases |a|
  {
    if |a| == 0 {
      assert a + b == b;
    } else {
      assert (a + b)[1..] == a[1..] + b;
      PullsOn(a[1..], b, t);
    }
  }

  // ------------------------------------------- what cut effects do to a cursor

  ghost predicate StoreOk(store: Store) {
    forall t :: t in store ==> Live(Some(store[t])) && DistinctIds(store[t].fixtureIds)
  }

  /**
    The cursor keeps its list and moves by the fixtures pulled, in order; a run cut between a pull
    and its save has pulled one more, the one at the cursor it leaves.
  */
  ghost predicate CutMoves(before: Option<Cursor>, after: Option<Cursor>, pulls: seq<string>, cut: bool) {
    && Live(after)
    && (before.Some? ==> after.Some? && after.value.fixtureIds == before.value.fixtureIds)
    && (after.None? ==> pulls == [] && !cut)
    && (after.Some? ==>
          && DistinctIds(after.value.fixtureIds)
          && SeasonBackfill.Start(before) <= after.value.nextIndex && (cut ==> Open(after.value))
          && pulls == after.value.fixtureIds[SeasonBackfill.Start(before)..after.value.nextIndex]
                      + if cut then [after.value.fixtureIds[after.value.nextIndex]] else [])
  }

  lemma PrependPull(before: Cursor, after: Option<Cursor>, pulls: seq<string>, cut: bool)
    requires Open(before) && CutMoves(Some(Bumped(before)), after, pulls, cut)
    ensures CutMoves(Some(before), after, [before.fixtureIds[before.nextIndex]] + pulls, cut)
  {
    var i, j := before.nextIndex, after.value.nextIndex;
    assert before.fixtureIds[i..j] == [before.fixtureIds[i]] + before.fixtureIds[i + 1..j];
  }

  ghost predicate EffectsMoved(store: Store, effects: seq<Effect>, t: Target) {
    && StoreOk(Saved(store, effects))
    && CutMoves(Read(store, t, false), Read(Saved(store, effects), t, false), PullsOf(effects, t), CutBetween(effects, t))
  }

  lemma {:induction false} LonePullMoves(store: Store, effects: seq<Effect>, t: Target)
    requires StoreOk(store) && Follows(store, effects) && |effects| == 1 && effects[0].Pull?
    ensures EffectsMoved(store, effects, t)
  {
    assert effects[1..] == [];
    if t in store {
      var c := store[t];
      assert c.fixtureIds[c.nextIndex..c.nextIndex] == [];
      assert Read(store, t, false) == Some(c);
    }
  }

  lemma PairMoves(store: Store, effects: seq<Effect>, t: Target)
    requires StoreOk(store) && Follows(store, effects) && 1 < |effects| && effects[0].Pull?
    requires EffectsMoved(store[effects[0].t := Bumped(store[effects[0].t])], effects[2..], t)
    ensures EffectsMoved(store, effects, t)
  {
    var u := effects[0].t;
    var rest, next := effects[2..], store[u := Bumped(store[u])];
    PairUnrolls(store, effects);
    assert [] + PullsOf(rest, t) == PullsOf(rest, t);
    if u == t {
      PrependPull(store[t], Read(Saved(next, rest), t, false), PullsOf(rest, t), CutBetween(rest, t));
    } else {
      assert Read(next, t, false) == Read(store, t, false);
    }
  }

  lemma SaveMoves(store: Store, effects: seq<Effect>, t: Target)
    requires StoreOk(store) && Follows(store, effects) && 0 < |effects| && effects[0].Save?
    requires EffectsMoved(store[effects[0].t := effects[0].cursor], effects[1..], t)
    ensures EffectsMoved(store, effects, t)
  {
    assert [] + PullsOf(effects[1..], t) == PullsOf(effects[1..], t);
  }

  lemma {:induction false} EffectsMove(store: Store, effects: seq<Effect>, t: Target)
    requires StoreOk(store) && Follows(store, effects)
    ensures EffectsMoved(store, effects, t)
    decreases |effects|
  {
    if |effects| > 0 {
      match effects[0]
      case Save(u, c) =>
        EffectsMove(store[u := c], effects[1..], t);
        SaveMoves(store, effects, t);
      case Pull(u, id) =>
        if |effects| == 1 {
          LonePullMoves(store, effects, t);
        } else {
          EffectsMove(store[u := Bumped(store[u])], effects[2..], t);
          PairMoves(store, effects, t);
        }
    }
  }

  // ---------------------------------------- the effects are those of the run

  /** Effects that leave `after`, with these pulls of `t`. */
  ghost predicate Leads(store: Store, e: seq<Effect>, after: Store, t: Target, ids: seq<string>) {
    Follows(store, e) && !EndsInPull(e) && Saved(store, e) == after && PullsOf(e, t) == ids
  }

  lemma EffectsCons(store: Store, t: Target, rest: seq<Effect>, after: Store, ids: seq<string>)
    requires t in store && Open(store[t])
    requires Leads(store[t := Bumped(store[t])], rest, after, t, ids)
    ensures var c := store[t];
            Leads(store, [Pull(t, c.fixtureIds[c.nextIndex]), Save(t, Bumped(c))] + rest, after, t, [c.fixtureIds[c.nextIndex]] + ids)
  {
    var c := store[t];
    var all := [Pull(t, c.fixtureIds[c.nextIndex]), Save(t, Bumped(c))] + rest;
    assert all[2..] == rest;
    PairUnrolls(store, all);
  }

  lemma {:induction false} WalkEffectsStep(t: Target, c: Cursor, world: nat -> Reply, p: Place, max: int)
    requires Open(c) && p.at < max && p.mode != Abort
    ensures WalkEffects(t, c, world, p, max) ==
            [Pull(t, c.fixtureIds[c.nextIndex]), Save(t, Bumped(c))] + WalkEffects(t, Bumped(c), world, Calls(world, p, CALLS_PER_FIXTURE), max)
  {}

  lemma LeadsStep(store: Store, t: Target, c: Cursor, next: seq<Effect>, rest: Walked, calls: nat)
    requires t in store && store[t] == c && Open(c)
    requires Leads(store[t := Bumped(c)], next, store[t := Bumped(c)][t := rest.cursor], t, Ids(rest.done))
    ensures Leads(store, [Pull(t, c.fixtureIds[c.nextIndex]), Save(t, Bumped(c))] + next, store[t := rest.cursor], t,
                  Ids([Done(c.fixtureIds[c.nextIndex], calls)] + rest.done))
  {
    IdsCons(Done(c.fixtureIds[c.nextIndex], calls), rest.done);
    assert store[t := Bumped(c)][t := rest.cursor] == store[t := rest.cursor];
    EffectsCons(store, t, next, store[t := rest.cursor], Ids(rest.done));
  }

  lemma NoEffects(store: Store, t: Target)
    requires t in store
    ensures Leads(store, [], store[t := store[t]], t, Ids([]))
  {
    assert store[t := store[t]] == store;
  }

  /** These effects and this walk are of one run on `store`. */
  ghost predicate WalkLeads(store: Store, t: Target, e: seq<Effect>, w: Walked) {
    Leads(store, e, store[t := w.cursor], t, Ids(w.done))
  }

  lemma WalkLeadsOn(store: Store, t: Target, c: Cursor, next: seq<Effect>, rest: Walked, e: seq<Effect>, w: Walked, calls: nat)
    requires t in store && store[t] == c && Open(c) && WalkLeads(store[t := Bumped(c)], t, next, rest)
    requires e == [Pull(t, c.fixtureIds[c.nextIndex]), Save(t, Bumped(c))] + next
    requires w == rest.(done := [Done(c.fixtureIds[c.nextIndex], calls)] + rest.done)
    ensures WalkLeads(store, t, e, w)
  {
    LeadsStep(store, t, c, next, rest, calls);
  }

  lemma {:induction false} WalkEffectsAre(store: Store, t: Target, c: Cursor, world: nat -> Reply, p: Place, max: int)
    requires t in store && store[t] == c
    ensures WalkLeads(store, t, WalkEffects(t, c, world, p, max), Walk(c, world, p, max))
    decreases |c.fixtureIds| - c.nextIndex
  {
    if Open(c) && p.at < max && p.mode != Abort {
      var q := Calls(world, p, CALLS_PER_FIXTURE);
      WalkEffectsAre(store[t := Bumped(c)], t, Bumped(c), world, q, max);
      WalkStep(c, world, p, max);
      WalkEffectsStep(t, c, world, p, max);
      WalkLeadsOn(store, t, c, WalkEffects(t, Bumped(c), world, q, max), Walk(Bumped(c), world, q, max),
                  WalkEffects(t, c, world, p, max), Walk(c, world, p, max), q.at - p.at);
    } else {
      NoEffects(store, t);
    }
  }

  lemma {:induction false} WalkEffectsOthers(t: Target, c: Cursor, world: nat -> Reply, p: Place, max: int, u: Target)
    requires u != t
    ensures PullsOf(WalkEffects(t, c, world, p, max), u) == []
    decreases |c.fixtureIds| - c.nextIndex
  {
    if Open(c) && p.at < max && p.mode != Abort {
      var rest := WalkEffects(t, Bumped(c), world, Calls(world, p, CALLS_PER_FIXTURE), max);
      WalkEffectsOthers(t, Bumped(c), world, Calls(world, p, CALLS_PER_FIXTURE), max, u);
      WalkEffectsStep(t, c, world, p, max);
      PullsOn([Pull(t, c.fixtureIds[c.nextIndex]), Save(t, Bumped(c))], rest, u);
    }
  }

  lemma {:induction false} DiscoveryEffectsOthers(t: Target, c: Cursor, world: nat -> Reply, p: Place, max: int, u: Target)
    requires u != t
    ensures PullsOf(DiscoveryEffects(t, c, world, p, max), u) == []
  {
    if c.discovered {
      WalkEffectsOthers(t, c, world, p, max, u);
    } else if p.at < max {
      var q := Place(p.at + 1, After(p.mode, world(p.at)));
      var found := Cursor(true, Discovered(world(p.at).items), 0, c.standingsDone);
      WalkEffectsOthers(t, found, world, q, max, u);
      PullsOn([Save(t, found)], WalkEffects(t, found, world, q, max), u);
    }
  }

  lemma {:induction false} TargetEffectsOthers(t: Target, stored: Option<Cursor>, world: nat -> Reply, at: nat, max: int, u: Target)
    requires u != t
    ensures PullsOf(TargetEffects(t, stored, world, at, max), u) == []
  {
    if stored.Some? && stored.value.standingsDone {
      DiscoveryEffectsOthers(t, stored.value, world, Place(at, Continue), max, u);
    } else {
      DiscoveryEffectsOthers(t, WithStandingsDone(stored), world, Place(at + 1, After(Continue, world(at))), max, u);
    }
  }

  lemma DiscoveredIsDistinct(data: Option<seq<Item>>)
    ensures DistinctIds(Discovered(data))
  {
    if data.Some? {
      FinalisedIdsAre(data.value);
    }
  }

  lemma FoundEffects(store: Store, t: Target, found: Cursor, rest: seq<Effect>, after: Store, ids: seq<string>)
    requires t !in store && found == Cursor(true, found.fixtureIds, 0, true) && DistinctIds(found.fixtureIds)
    requires Leads(store[t := found], rest, after, t, ids)
    ensures Leads(store, [Save(t, found)] + rest, after, t, ids)
  {
    var all := [Save(t, found)] + rest;
    assert all[1..] == rest;
    assert [] + PullsOf(rest, t) == PullsOf(rest, t);
  }

  lemma {:induction false} WalkSaves(c: Cursor, world: nat -> Reply, p: Place, max: int)
    requires Live(Some(c))
    ensures FromWalk(Some(c), c, world, p, max).stored == Some(Walk(c, world, p, max).cursor)
  {
    WalkEnds(c, world, p, max);
  }

  lemma StoredEffectsAre(store: Store, t: Target, world: nat -> Reply, at: nat, max: int)
    requires StoreOk(store) && t in store
    ensures var v := TargetRun(Some(store[t]), world, at, max);
            Leads(store, TargetEffects(t, Some(store[t]), world, at, max), Write(store, t, v.stored), t, Ids(v.done))
  {
    WalkEffectsAre(store, t, store[t], world, Place(at, Continue), max);
    WalkSaves(store[t], world, Place(at, Continue), max);
  }

  lemma {:induction false} FoundEffectsAre(store: Store, t: Target, found: Cursor, world: nat -> Reply, p: Place, max: int)
    requires t !in store && found == Cursor(true, found.fixtureIds, 0, true) && DistinctIds(found.fixtureIds)
    ensures var v := FromWalk(Some(found), found, world, p, max);
            Leads(store, [Save(t, found)] + WalkEffects(t, found, world, p, max), Write(store, t, v.stored), t, Ids(v.done))
  {
    var w := Walk(found, world, p, max);
    WalkEffectsAre(store[t := found], t, found, world, p, max);
    WalkSaves(found, world, p, max);
    assert store[t := found][t := w.cursor] == store[t := w.cursor];
    FoundEffects(store, t, found, WalkEffects(t, found, world, p, max), store[t := w.cursor], Ids(w.done));
  }

  lemma FreshEffectsAre(store: Store, t: Target, world: nat -> Reply, at: nat, max: int)
    requires t !in store
    ensures var v := TargetRun(None, world, at, max);
            Leads(store, TargetEffects(t, None, world, at, max), Write(store, t, v.stored), t, Ids(v.done))
  {
    FirstRun(world, at, max);
    var q := Place(at + 1, After(Continue, world(at)));
    var r := Place(at + 2, After(q.mode, world(at + 1)));
    if at + 1 < max && q.mode != Abort && r.mode != Abort {
      DiscoveredIsDistinct(world(at + 1).items);
      FoundEffectsAre(store, t, Cursor(true, Discovered(world(at + 1).items), 0, true), world, r, max);
    }
  }

  lemma TargetEffectsAre(store: Store, t: Target, world: nat -> Reply, at: nat, max: int)
    requires StoreOk(store)
    ensures var v := TargetRun(Read(store, t, false), world, at, max);
            Leads(store, TargetEffects(t, Read(store, t, false), world, at, max), Write(store, t, v.stored), t, Ids(v.done))
  {
    if t in store {
      StoredEffectsAre(store, t, world, at, max);
    } else {
      FreshEffectsAre(store, t, world, at, max);
    }
  }

  function FirstEffects(r: Run, u: Target, world: nat -> Reply, max: int): seq<Effect> {
    if r.stop == Going then TargetEffects(u, Read(r.store, u, false), world, r.at, max) else []
  }

  lemma StepEffectsAre(r: Run, u: Target, world: nat -> Reply, max: int)
    requires StoreOk(r.store) && Pulled(r, u) == []
    ensures var s := Step(r, u, false, world, max);
            Leads(r.store, FirstEffects(r, u, world, max), s.store, u, Ids(Pulled(s, u)))
  {
    if r.stop == Going {
      TargetEffectsAre(r.store, u, world, r.at, max);
    }
  }

  lemma LeadsOn(store: Store, a: seq<Effect>, mid: Store, b: seq<Effect>, after: Store, t: Target, x: seq<string>, y: seq<string>)
    requires Leads(store, a, mid, t, x) && Leads(mid, b, after, t, y)
    ensures Leads(store, a + b, after, t, x + y)
  {
    FollowsOn(store, a, b);
    SavedOn(store, a, b);
    PullsOn(a, b, t);
    if b == [] {
      assert a + b == a;
    } else {
      assert (a + b)[|a + b| - 1] == b[|b| - 1];
    }
  }

  lemma {:induction false} RunEffectsStep(r: Run, targets: seq<Target>, world: nat -> Reply, max: int)
    requires 0 < |targets|
    ensures var s := Step(r, targets[0], false, world, max);
            && RunEffects(r, targets, world, max) == FirstEffects(r, targets[0], world, max) + RunEffects(s, targets[1..], world, max)
            && Fold(r, targets, false, world, max) == Fold(s, targets[1..], false, world, max)
  {}

  lemma StepOk(r: Run, u: Target, world: nat -> Reply, max: int)
    requires StoreOk(r.store) && Pulled(r, u) == []
    ensures StoreOk(Step(r, u, false, world, max).store)
  {
    StepEffectsAre(r, u, world, max);
    EffectsMove(r.store, FirstEffects(r, u, world, max), u);
  }

  /** A whole run's effects leave the cursors and pull the fixtures the run does. */
  lemma {:induction false} RunEffectsAre(r: Run, targets: seq<Target>, world: nat -> Reply, max: int, t: Target)
    requires StoreOk(r.store) && Distinct(targets) && forall u :: u in targets ==> Pulled(r, u) == []
    ensures var f := Fold(r, targets, false, world, max);
            Leads(r.store, RunEffects(r, targets, world, max), f.store, t, if t in targets then Ids(Pulled(f, t)) else [])
    decreases |targets|
  {
    if |targets| > 0 {
      var u, s := targets[0], Step(r, targets[0], false, world, max);
      var first, rest, f := FirstEffects(r, u, world, max), RunEffects(s, targets[1..], world, max), Fold(s, targets[1..], false, world, max);
      StepEffectsAre(r, u, world, max);
      StepOk(r, u, world, max);
      forall v | v in targets[1..]
        ensures Pulled(s, v) == []
      {
        StepLeaves(r, u, world, max, v);
      }
      RunEffectsAre(s, targets[1..], world, max, t);
      RunEffectsStep(r, targets, world, max);
      if t == u {
        FoldLeaves(s, targets[1..], world, max, t);
        LeadsOn(r.store, first, s.store, rest, f.store, t, Ids(Pulled(s, t)), []);
        assert Ids(Pulled(s, t)) + [] == Ids(Pulled(f, t));
      } else {
        TargetEffectsOthers(u, Read(r.store, u, false), world, r.at, max, t);
        assert Leads(r.store, first, s.store, t, []);
        LeadsOn(r.store, first, s.store, rest, f.store, t, [], if t in targets[1..] then Ids(Pulled(f, t)) else []);
        assert [] + PullsOf(rest, t) == PullsOf(rest, t);
        assert t in targets <==> t in targets[1..];
      }
    }
  }

  // ------------------------------------------------------ run after run, cut

  /** What each run got done, run by run. */
  type Log = seq<seq<Effect>>

  function StoreAfter(log: Log): Store {
    if |log| == 0 then map[] else Saved(StoreAfter(log[..|log| - 1]), log[|log| - 1])
  }

  /** Every pull of `t` begun, in order. */
  function PullsIn(log: Log, t: Target): seq<string> {
    if |log| == 0 then [] else PullsIn(log[..|log| - 1], t) + PullsOf(log[|log| - 1], t)
  }

  /** How many runs were cut between the pull of this fixture and its stored cursor. */
  function CutsBehind(log: Log, t: Target, id: string): nat {
    if |log| == 0 then 0
    else
      var e := log[|log| - 1];
      CutsBehind(log[..|log| - 1], t, id) + if CutBetween(e, t) && e[|e| - 1].fixtureId == id then 1 else 0
  }

  /** No run was cut between a pull of `t` and its stored cursor. */
  predicate NeverCutBetween(log: Log, t: Target) {
    |log| == 0 || (NeverCutBetween(log[..|log| - 1], t) && !CutBetween(log[|log| - 1], t))
  }

  ghost predicate Legal(log: Log) {
    |log| == 0 || (Legal(log[..|log| - 1]) && Follows(StoreAfter(log[..|log| - 1]), log[|log| - 1]))
  }

  lemma {:induction false} LegalStoreOk(log: Log, t: Target)
    requires Legal(log)
    ensures StoreOk(StoreAfter(log))
  {
    if |log| > 0 {
      LegalStoreOk(log[..|log| - 1], t);
      EffectsMove(StoreAfter(log[..|log| - 1]), log[|log| - 1], t);
    }
  }

  /**
    `h` goes through `ids` up to the cursor `k` without a gap: each pull is of the fixture the
    cursor was at, and either the cursor passed it or it stayed.
  */
  predicate NoGap(ids: seq<string>, k: nat, h: seq<string>)
    decreases |h|
  {
    if |h| == 0 then k == 0
    else
      var front, last := h[..|h| - 1], h[|h| - 1];
      || (k < |ids| && last == ids[k] && NoGap(ids, k, front))
      || (0 < k <= |ids| && last == ids[k - 1] && NoGap(ids, k - 1, front))
  }

  lemma {:induction false} NoGapOn(ids: seq<string>, i: nat, j: nat, h: seq<string>)
    requires i <= j <= |ids| && NoGap(ids, i, h)
    ensures NoGap(ids, j, h + ids[i..j])
    decreases j - i
  {
    if i == j {
      assert h + ids[i..j] == h;
    } else {
      NoGapOn(ids, i, j - 1, h);
      var all := h + ids[i..j];
      assert all[..|all| - 1] == h + ids[i..j - 1];
    }
  }

  lemma {:induction false} NoGapCut(ids: seq<string>, k: nat, h: seq<string>)
    requires k < |ids| && NoGap(ids, k, h)
    ensures NoGap(ids, k, h + [ids[k]])
  {
    assert (h + [ids[k]])[..|h|] == h;
  }

  lemma {:induction false} SliceCounts(ids: seq<string>, i: nat, j: nat, m: nat)
    requires i <= j <= |ids| && m < |ids| && DistinctIds(ids)
    ensures multiset(ids[i..j])[ids[m]] == if i <= m < j then 1 else 0
    decreases j - i
  {
    if i < j {
      SliceCounts(ids, i, j - 1, m);
      assert ids[i..j] == ids[i..j - 1] + [ids[j - 1]];
    }
  }

  /** Each fixture before the cursor once, and each as often again as a cut fell behind it. */
  ghost predicate CountsOk(ids: seq<string>, k: nat, h: seq<string>, behind: string -> nat) {
    forall m :: 0 <= m < |ids| ==> multiset(h)[ids[m]] == (if m < k then 1 else 0) + behind(ids[m])
  }

  /** The cursor, what was pulled, and the cuts, agree. */
  ghost predicate Accounted(c: Option<Cursor>, h: seq<string>, behind: string -> nat) {
    if c.None? then h == [] && forall id :: behind(id) == 0
    else NoGap(c.value.fixtureIds, c.value.nextIndex, h) && CountsOk(c.value.fixtureIds, c.value.nextIndex, h, behind)
  }

  /** `behind'` counts one more cut behind `ids[j]`, if there was one. */
  ghost predicate OneMoreBehind(behind: string -> nat, behind': string -> nat, cut: bool, id: string) {
    forall x :: behind'(x) == behind(x) + if cut && x == id then 1 else 0
  }

  lemma CountsOn(ids: seq<string>, i: nat, j: nat, h: seq<string>, cut: bool, behind: string -> nat, behind': string -> nat)
    requires DistinctIds(ids) && i <= j <= |ids| && CountsOk(ids, i, h, behind)
    requires cut ==> j < |ids| && OneMoreBehind(behind, behind', true, ids[j])
    requires !cut ==> OneMoreBehind(behind, behind', false, "")
    ensures CountsOk(ids, j, h + (ids[i..j] + if cut then [ids[j]] else []), behind')
  {
    var tail := if cut then [ids[j]] else [];
    forall m | 0 <= m < |ids|
      ensures multiset(h + (ids[i..j] + tail))[ids[m]] == (if m < j then 1 else 0) + behind'(ids[m])
    {
      SliceCounts(ids, i, j, m);
      assert multiset(h + (ids[i..j] + tail)) == multiset(h) + multiset(ids[i..j]) + multiset(tail);
    }
  }

  lemma {:induction false} NoGapMoves(ids: seq<string>, i: nat, j: nat, h: seq<string>, cut: bool)
    requires i <= j <= |ids| && NoGap(ids, i, h) && (cut ==> j < |ids|)
    ensures NoGap(ids, j, h + (ids[i..j] + if cut then [ids[j]] else []))
  {
    NoGapOn(ids, i, j, h);
    if cut {
      NoGapCut(ids, j, h + ids[i..j]);
      assert h + (ids[i..j] + [ids[j]]) == h + ids[i..j] + [ids[j]];
    } else {
      assert h + (ids[i..j] + []) == h + ids[i..j];
    }
  }

  lemma AccountedOn(before: Option<Cursor>, after: Option<Cursor>, h: seq<string>, pulls: seq<string>, cut: bool,
                    behind: string -> nat, behind': string -> nat)
    requires Accounted(before, h, behind) && CutMoves(before, after, pulls, cut)
    requires OneMoreBehind(behind, behind', cut, if cut then after.value.fixtureIds[after.value.nextIndex] else "")
    ensures Accounted(after, h + pulls, behind')
  {
    if after.Some? {
      var ids, i, j := after.value.fixtureIds, SeasonBackfill.Start(before), after.value.nextIndex;
      NoGapMoves(ids, i, j, h, cut);
      assert CountsOk(ids, i, h, behind);
      CountsOn(ids, i, j, h, cut, behind, behind');
    }
  }

  lemma {:induction false} LastPull(e: seq<Effect>, t: Target)
    requires CutBetween(e, t)
    ensures PullsOf(e, t) != [] && PullsOf(e, t)[|PullsOf(e, t)| - 1] == e[|e| - 1].fixtureId
    decreases |e|
  {
    if |e| > 1 {
      LastPull(e[1..], t);
    } else {
      assert e[1..] == [];
    }
  }

  lemma {:induction false} LastPullIsCut(before: Store, e: seq<Effect>, t: Target)
    requires CutMoves(Read(before, t, false), Read(Saved(before, e), t, false), PullsOf(e, t), CutBetween(e, t))
    ensures CutBetween(e, t) ==> var c := Read(Saved(before, e), t, false).value; e[|e| - 1].fixtureId == c.fixtureIds[c.nextIndex]
  {
    if CutBetween(e, t) {
      LastPull(e, t);
    }
  }

  lemma {:induction false} EffectsAccounted(before: Store, e: seq<Effect>, t: Target, h: seq<string>, behind: string -> nat, behind': string -> nat)
    requires Accounted(Read(before, t, false), h, behind)
    requires CutMoves(Read(before, t, false), Read(Saved(before, e), t, false), PullsOf(e, t), CutBetween(e, t))
    requires OneMoreBehind(behind, behind', CutBetween(e, t), if CutBetween(e, t) then e[|e| - 1].fixtureId else "")
    ensures Accounted(Read(Saved(before, e), t, false), h + PullsOf(e, t), behind')
  {
    LastPullIsCut(before, e, t);
    AccountedOn(Read(before, t, false), Read(Saved(before, e), t, false), h, PullsOf(e, t), CutBetween(e, t), behind, behind');
  }

  function Behind(log: Log, t: Target): string -> nat { (id: string) => CutsBehind(log, t, id) }

  lemma BehindStep(log: Log, t: Target)
    requires 0 < |log|
    ensures var e := log[|log| - 1];
            OneMoreBehind(Behind(log[..|log| - 1], t), Behind(log, t), CutBetween(e, t), if CutBetween(e, t) then e[|e| - 1].fixtureId else "")
  {}

  lemma {:induction false} LegalAccounted(log: Log, t: Target)
    requires Legal(log)
    ensures Accounted(Read(StoreAfter(log), t, false), PullsIn(log, t), Behind(log, t))
  {
    if |log| > 0 {
      var front, e := log[..|log| - 1], log[|log| - 1];
      LegalAccounted(front, t);
      LegalStoreOk(front, t);
      EffectsMove(StoreAfter(front), e, t);
      BehindStep(log, t);
      EffectsAccounted(StoreAfter(front), e, t, PullsIn(front, t), Behind(front, t), Behind(log, t));
    }
  }

  lemma {:induction false} CountIsPrefixOnly(ids: seq<string>, k: nat, h: seq<string>)
    requires NoGap(ids, k, h)
    ensures k <= |h| && (|h| == k ==> k <= |ids| && h == ids[..k])
    decreases |h|
  {
    if |h| > 0 {
      var front, last := h[..|h| - 1], h[|h| - 1];
      if k < |ids| && last == ids[k] && NoGap(ids, k, front) {
        CountIsPrefixOnly(ids, k, front);
      } else {
        CountIsPrefixOnly(ids, k - 1, front);
        if |h| == k {
          assert ids[..k] == ids[..k - 1] + [ids[k - 1]];
        }
      }
    }
  }

  lemma CutMovesLength(before: Option<Cursor>, after: Option<Cursor>, pulls: seq<string>, cut: bool)
    requires CutMoves(before, after, pulls, cut)
    ensures |pulls| == SeasonBackfill.Start(after) - SeasonBackfill.Start(before) + if cut then 1 else 0
  {}

  lemma {:induction false} LegalPulls(log: Log, t: Target)
    requires Legal(log)
    ensures SeasonBackfill.Start(Read(StoreAfter(log), t, false)) <= |PullsIn(log, t)|
    ensures |PullsIn(log, t)| == SeasonBackfill.Start(Read(StoreAfter(log), t, false)) <==> NeverCutBetween(log, t)
  {
    if |log| > 0 {
      var front, e := log[..|log| - 1], log[|log| - 1];
      LegalPulls(front, t);
      LegalStoreOk(front, t);
      EffectsMove(StoreAfter(front), e, t);
      CutMovesLength(Read(StoreAfter(front), t, false), Read(StoreAfter(log), t, false), PullsOf(e, t), CutBetween(e, t));
    }
  }

  // ------------------------------------------------------------ the cut runs

  /** What a run on these cursors gets done if it is cut after `cut` effects. */
  function Performed(targets: seq<Target>, store: Store, world: nat -> Reply, max: int, cut: nat): seq<Effect> {
    var e := RunEffects(Begin(store), targets, world, max);
    if cut <= |e| then e[..cut] else e
  }

  /** `log` is of runs one after another, each on the cursors the ones before left, each cut where `cuts` says. */
  predicate CutRuns(log: Log, targets: seq<Target>, feed: nat -> (nat -> Reply), max: int, cuts: nat -> nat) {
    if |log| == 0 then true
    else
      var n := |log| - 1;
      CutRuns(log[..n], targets, feed, max, cuts) && log[n] == Performed(targets, StoreAfter(log[..n]), feed(n), max, cuts(n))
  }

  lemma {:induction false} PerformedFollows(targets: seq<Target>, store: Store, world: nat -> Reply, max: int, cut: nat)
    requires StoreOk(store) && Distinct(targets)
    ensures Follows(store, Performed(targets, store, world, max, cut))
  {
    var e := RunEffects(Begin(store), targets, world, max);
    RunEffectsAre(Begin(store), targets, world, max, Target(0, 0));
    if cut <= |e| {
      CutFollows(store, e, cut);
    }
  }

  lemma {:induction false} CutRunsLegal(log: Log, targets: seq<Target>, feed: nat -> (nat -> Reply), max: int, cuts: nat -> nat)
    requires Distinct(targets) && CutRuns(log, targets, feed, max, cuts)
    ensures Legal(log)
  {
    if |log| > 0 {
      var n := |log| - 1;
      CutRunsLegal(log[..n], targets, feed, max, cuts);
      LegalStoreOk(log[..n], Target(0, 0));
      PerformedFollows(targets, StoreAfter(log[..n]), feed(n), max, cuts(n));
    }
  }

  /** One cut run moves each league-season without a gap, and begins at most one pull more, of the fixture at the cursor it leaves. */
  lemma {:induction false} CutRunMoves(targets: seq<Target>, store: Store, world: nat -> Reply, max: int, cut: nat, t: Target)
    requires StoreOk(store) && Distinct(targets)
    ensures var e := Performed(targets, store, world, max, cut);
            StoreOk(Saved(store, e)) && CutMoves(Read(store, t, false), Read(Saved(store, e), t, false), PullsOf(e, t), CutBetween(e, t))
  {
    PerformedFollows(targets, store, world, max, cut);
    EffectsMove(store, Performed(targets, store, world, max, cut), t);
  }

  /**
    Over any number of runs, each cut at any await or not at all, with any answers: the pulls of a
    league-season go through its list in order and leave no gap; and each fixture before the cursor
    was pulled once, and once more for every run cut between its pull and its stored cursor, the one
    at the cursor only by such cuts. So a fixture is pulled twice exactly if such a cut fell on it.
  */
  lemma {:induction false} CutRunsLeaveNoGap(log: Log, targets: seq<Target>, feed: nat -> (nat -> Reply), max: int, cuts: nat -> nat, t: Target)
    requires Distinct(targets) && CutRuns(log, targets, feed, max, cuts)
    ensures Accounted(Read(StoreAfter(log), t, false), PullsIn(log, t), Behind(log, t))
  {
    CutRunsLegal(log, targets, feed, max, cuts);
    LegalAccounted(log, t);
  }

  /** Exactly when nothing is repeated: the pulls are the list before the cursor if and only if no run was cut between a pull and its stored cursor. */
  lemma {:induction false} NoRepeatIffNeverCutBetween(log: Log, targets: seq<Target>, feed: nat -> (nat -> Reply), max: int, cuts: nat -> nat, t: Target)
    requires Distinct(targets) && CutRuns(log, targets, feed, max, cuts) && t in StoreAfter(log)
    ensures var c := StoreAfter(log)[t];
            && c.nextIndex <= |c.fixtureIds|
            && (PullsIn(log, t) == c.fixtureIds[..c.nextIndex] <==> NeverCutBetween(log, t))
  {
    var c := StoreAfter(log)[t];
    CutRunsLegal(log, targets, feed, max, cuts);
    LegalStoreOk(log, t);
    LegalAccounted(log, t);
    LegalPulls(log, t);
    assert Live(Some(c));
    CountIsPrefixOnly(c.fixtureIds, c.nextIndex, PullsIn(log, t));
  }

  /** Whatever was cut before, runs that are not complete every league-season, given two calls and no hard cap. */
  lemma CompletesAfterCuts(log: Log, targets: seq<Target>, feed: nat -> (nat -> Reply), max: int, cuts: nat -> nat, later: nat -> (nat -> Reply))
    returns (m: nat)
    requires Distinct(targets) && CutRuns(log, targets, feed, max, cuts)
    requires 2 <= max && forall k: nat :: NoAbort(later(k))
    ensures AllComplete(StoreBefore(targets, StoreAfter(log), later, max, m), targets)
  {
    CutRunsLegal(log, targets, feed, max, cuts);
    LegalStoreOk(log, Target(0, 0));
    m := CompletesFrom(targets, StoreAfter(log), later, max, 0);
  }
}
