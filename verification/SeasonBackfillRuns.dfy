/**
  Whole season-backfill runs (src/workflows/season-backfill.ts), one after another on the cursors
  the runs before them stored. `feed` is what the provider answers, run by run.
*/
module SeasonBackfillRuns {
  import opened Common
  import opened Sums
  import opened SeasonBackfill

  const DEFAULT_MAX_CALLS_PER_RUN := 5_000

  datatype Target = Target(leagueId: nat, season: nat)

  type Store = map<Target, Cursor>

  function MaxCalls(requested: Option<int>): (max: int)
    ensures 0 < max
    ensures requested.Some? && 0 < requested.value ==> max == requested.value
    ensures requested.None? || requested.value <= 0 ==> max == 5_000
  {
    if requested.Some? && requested.value > 0 then requested.value else DEFAULT_MAX_CALLS_PER_RUN
  }

  function Read(store: Store, t: Target, reset: bool): Option<Cursor> {
    if !reset && t in store then Some(store[t]) else None
  }

  function Write(store: Store, t: Target, c: Option<Cursor>): Store {
    if c.Some? then store[t := c.value] else store
  }

  datatype Stop = Going | Halted | Aborted

  /** A run part-way through its league-seasons; `pulled` is what it pulled of each. */
  datatype Run = Run(store: Store, at: nat, stop: Stop, allComplete: bool, pulled: map<Target, seq<Done>>)

  function Begin(store: Store): Run { Run(store, 0, Going, true, map[]) }

  function Step(r: Run, t: Target, reset: bool, world: nat -> Reply, max: int): Run {
    if r.stop != Going then r.(allComplete := r.allComplete && IsCursorComplete(Read(r.store, t, reset)))
    else
      var v := TargetRun(Read(r.store, t, reset), world, r.at, max);
      Run(Write(r.store, t, v.stored), v.place.at,
          if v.place.mode == Abort then Aborted else if max <= v.place.at then Halted else Going,
          r.allComplete && IsCursorComplete(v.cursor) && v.place.mode != Abort,
          r.pulled[t := v.done])
  }

  function Fold(r: Run, targets: seq<Target>, reset: bool, world: nat -> Reply, max: int): Run
    decreases |targets|
  {
    if |targets| == 0 then r else Fold(Step(r, targets[0], reset, world, max), targets[1..], reset, world, max)
  }

  datatype Status = Complete | Incomplete | WasAborted

  function StatusOf(r: Run): Status {
    if r.stop == Aborted then WasAborted else if r.allComplete then Complete else Incomplete
  }

  method SeasonBackfillWorkflow(targets: seq<Target>, store: Store, reset: bool, world: nat -> Reply, max: int)
    returns (r: Run, status: Status)
    ensures r == Fold(Begin(store), targets, reset, world, max) && status == StatusOf(r)
  {
    r := Begin(store);
    for i := 0 to |targets|
      invariant Fold(Begin(store), targets, reset, world, max) == Fold(r, targets[i..], reset, world, max)
    {
      var target := targets[i];
      assert targets[i..][0] == target && targets[i..][1..] == targets[i + 1..];
      if r.stop != Going {
        r := r.(allComplete := r.allComplete && IsCursorComplete(Read(r.store, target, reset)));
      } else {
        var v := BackfillTarget(Read(r.store, target, reset), world, r.at, max);
        r := Run(Write(r.store, target, v.stored), v.place.at,
                 if v.place.mode == Abort then Aborted else if max <= v.place.at then Halted else Going,
                 r.allComplete && IsCursorComplete(v.cursor) && v.place.mode != Abort,
                 r.pulled[target := v.done]);
      }
    }
    status := StatusOf(r);
  }

  // --------------------------------------------------------------- one run

  ghost predicate AllLive(store: Store) { forall t :: t in store ==> Live(Some(store[t])) }

  ghost predicate Distinct(targets: seq<Target>) { forall i, j :: 0 <= i < j < |targets| ==> targets[i] != targets[j] }

  /** Before anything was called, or with calls left, or stopped within four calls past the budget. */
  ghost predicate BudgetOk(r: Run, max: int) {
    r.at == 0 || r.at < max || (r.stop != Going && r.at < max + CALLS_PER_FIXTURE)
  }

  lemma StepKeeps(r: Run, t: Target, reset: bool, world: nat -> Reply, max: int)
    requires AllLive(r.store) && BudgetOk(r, max)
    ensures AllLive(Step(r, t, reset, world, max).store) && BudgetOk(Step(r, t, reset, world, max), max)
  {
    TargetMoves(Read(r.store, t, reset), world, r.at, max);
  }

  lemma {:induction false} FoldKeeps(r: Run, targets: seq<Target>, reset: bool, world: nat -> Reply, max: int)
    requires AllLive(r.store) && BudgetOk(r, max)
    ensures AllLive(Fold(r, targets, reset, world, max).store) && BudgetOk(Fold(r, targets, reset, world, max), max)
    decreases |targets|
  {
    if |targets| > 0 {
      StepKeeps(r, targets[0], reset, world, max);
      FoldKeeps(Step(r, targets[0], reset, world, max), targets[1..], reset, world, max);
    }
  }

  /** A run makes at most four calls more than its budget, over all its league-seasons together. */
  lemma {:induction false} RunBudget(targets: seq<Target>, store: Store, reset: bool, world: nat -> Reply, max: int)
    requires AllLive(store) && 0 < max
    ensures Fold(Begin(store), targets, reset, world, max).at <= max + 4
  {
    FoldKeeps(Begin(store), targets, reset, world, max);
  }

  // ---------------------------------------------------- what a run reports

  /** One of the calls below `at` met a hard cap. */
  ghost predicate MetCap(world: nat -> Reply, at: nat) { exists k: nat :: k < at && world(k).posture == Abort }

  /** Up to here: aborted exactly if a call met a hard cap, else halted or going by the budget; complete exactly if all seen are. */
  ghost predicate ReportOk(r: Run, seen: seq<Target>, world: nat -> Reply, max: int) {
    && AllLive(r.store)
    && (r.stop == Aborted <==> MetCap(world, r.at))
    && (r.stop == Halted ==> max <= r.at) && (r.stop == Going && 0 < r.at ==> r.at < max)
    && (r.stop != Aborted ==> (r.allComplete <==> forall i :: 0 <= i < |seen| ==> IsCursorComplete(Read(r.store, seen[i], false))))
  }

  /** A live cursor a visit leaves is stored, so complete in the store exactly if the visit says so. */
  lemma VisitStoresItsCursor(stored: Option<Cursor>, world: nat -> Reply, at: nat, max: int)
    requires Live(stored)
    ensures var v := TargetRun(stored, world, at, max);
            IsCursorComplete(v.cursor) <==> IsCursorComplete(if v.stored.Some? then v.stored else stored)
  {
    if stored.Some? {
      var w := Walk(stored.value, world, Place(at, Continue), max);
      WalkEnds(stored.value, world, Place(at, Continue), max);
    } else if at < max {
      var q := Place(at + 1, After(Continue, world(at)));
      if q.mode != Abort && at + 1 < max {
        var r := Place(at + 2, After(q.mode, world(at + 1)));
        var found := Cursor(true, Discovered(world(at + 1).items), 0, true);
        WalkEnds(found, world, r, max);
      }
    }
  }

  lemma CapMetAtTheEnd(world: nat -> Reply, at: nat, end: Place)
    requires !MetCap(world, at) && at <= end.at && EndsAtACap(world, at, end)
    ensures end.mode == Abort <==> MetCap(world, end.at)
  {
    if end.mode == Abort {
      assert world(end.at - 1).posture == Abort;
    }
    if MetCap(world, end.at) {
      var k: nat :| k < end.at && world(k).posture == Abort;
      assert at <= k;
    }
  }

  /** One league-season more, by a run still going. */
  lemma VisitedNext(r: Run, t: Target, world: nat -> Reply, max: int)
    requires AllLive(r.store) && r.stop == Going && !MetCap(world, r.at)
    ensures var after := Step(r, t, false, world, max);
            && AllLive(after.store) && (forall u :: u != t ==> Read(after.store, u, false) == Read(r.store, u, false))
            && (after.stop == Aborted <==> MetCap(world, after.at))
            && (after.stop == Halted ==> max <= after.at) && (after.stop == Going ==> after.at < max)
            && (after.stop != Aborted ==> (after.allComplete <==> r.allComplete && IsCursorComplete(Read(after.store, t, false))))
  {
    var stored := Read(r.store, t, false);
    var v := TargetRun(stored, world, r.at, max);
    TargetMoves(stored, world, r.at, max);
    NoneAfterAHardCap(stored, world, r.at, max);
    VisitStoresItsCursor(stored, world, r.at, max);
    CapMetAtTheEnd(world, r.at, v.place);
  }

  lemma StepReports(r: Run, seen: seq<Target>, t: Target, world: nat -> Reply, max: int)
    requires ReportOk(r, seen, world, max) && t !in seen
    ensures ReportOk(Step(r, t, false, world, max), seen + [t], world, max)
  {
    var after := Step(r, t, false, world, max);
    if r.stop == Going {
      VisitedNext(r, t, world, max);
    }
    SeenAllComplete(r.store, after.store, seen, t);
  }

  lemma SeenAllComplete(before: Store, after: Store, seen: seq<Target>, t: Target)
    requires t !in seen && forall u :: u != t ==> Read(after, u, false) == Read(before, u, false)
    ensures (forall i :: 0 <= i < |seen + [t]| ==> IsCursorComplete(Read(after, (seen + [t])[i], false))) <==>
            (forall i :: 0 <= i < |seen| ==> IsCursorComplete(Read(before, seen[i], false))) && IsCursorComplete(Read(after, t, false))
  {
    var all := seen + [t];
    assert all[|seen|] == t;
    forall i | 0 <= i < |seen|
      ensures all[i] == seen[i] && Read(after, all[i], false) == Read(before, seen[i], false)
    {
      assert seen[i] in seen;
    }
  }

  lemma {:induction false} FoldReports(r: Run, seen: seq<Target>, targets: seq<Target>, world: nat -> Reply, max: int)
    requires ReportOk(r, seen, world, max) && Distinct(seen + targets)
    ensures ReportOk(Fold(r, targets, false, world, max), seen + targets, world, max)
    decreases |targets|
  {
    if |targets| == 0 {
      assert seen + targets == seen;
    } else {
      assert seen + [targets[0]] + targets[1..] == seen + targets;
      forall i | 0 <= i < |seen|
        ensures seen[i] != targets[0]
      {
        assert (seen + targets)[i] == seen[i] && (seen + targets)[|seen|] == targets[0];
      }
      StepReports(r, seen, targets[0], world, max);
      FoldReports(Step(r, targets[0], false, world, max), seen + [targets[0]], targets[1..], world, max);
    }
  }

  /**
    What a run reports. Aborted exactly if one of its calls met a hard cap; else complete exactly if
    every league-season asked for is complete in the store it leaves, and incomplete otherwise.
  */
  lemma {:induction false} StatusIs(targets: seq<Target>, store: Store, world: nat -> Reply, max: int)
    requires AllLive(store) && Distinct(targets)
    ensures var r := Fold(Begin(store), targets, false, world, max);
            && (StatusOf(r) == WasAborted <==> MetCap(world, r.at))
            && (StatusOf(r) == Complete <==>
                StatusOf(r) != WasAborted && forall i :: 0 <= i < |targets| ==> IsCursorComplete(Read(r.store, targets[i], false)))
  {
    assert [] + targets == targets;
    FoldReports(Begin(store), [], targets, world, max);
  }

  function Pulled(r: Run, t: Target): seq<Done> { if t in r.pulled then r.pulled[t] else [] }

  lemma {:induction false} FoldLeaves(r: Run, targets: seq<Target>, world: nat -> Reply, max: int, t: Target)
    requires t !in targets
    ensures var f := Fold(r, targets, false, world, max); Read(f.store, t, false) == Read(r.store, t, false) && Pulled(f, t) == Pulled(r, t)
    decreases |targets|
  {
    if |targets| > 0 {
      FoldLeaves(Step(r, targets[0], false, world, max), targets[1..], world, max, t);
    }
  }

  lemma MovesNowhere(c: Option<Cursor>)
    requires Live(c)
    ensures Moves(c, c, [])
  {}

  lemma StepMoves(r: Run, t: Target, world: nat -> Reply, max: int)
    requires AllLive(r.store) && Pulled(r, t) == []
    ensures var s := Step(r, t, false, world, max); Moves(Read(r.store, t, false), Read(s.store, t, false), Pulled(s, t))
  {
    if r.stop == Going {
      TargetMoves(Read(r.store, t, false), world, r.at, max);
    } else {
      MovesNowhere(Read(r.store, t, false));
    }
  }

  lemma StepLeaves(r: Run, u: Target, world: nat -> Reply, max: int, t: Target)
    requires t != u
    ensures var s := Step(r, u, false, world, max); Read(s.store, t, false) == Read(r.store, t, false) && Pulled(s, t) == Pulled(r, t)
  {}

  /** In one run, each league-season moves on from its stored cursor without a gap or a repeat. */
  lemma {:induction false} FoldMoves(r: Run, targets: seq<Target>, world: nat -> Reply, max: int, t: Target)
    requires AllLive(r.store) && BudgetOk(r, max) && Distinct(targets) && Pulled(r, t) == []
    ensures var f := Fold(r, targets, false, world, max); Moves(Read(r.store, t, false), Read(f.store, t, false), Pulled(f, t))
    decreases |targets|
  {
    if |targets| == 0 {
      MovesNowhere(Read(r.store, t, false));
    } else {
      var s := Step(r, targets[0], false, world, max);
      StepKeeps(r, targets[0], false, world, max);
      if t == targets[0] {
        StepMoves(r, t, world, max);
        FoldLeaves(s, targets[1..], world, max, t);
      } else {
        StepLeaves(r, targets[0], world, max, t);
        FoldMoves(s, targets[1..], world, max, t);
      }
    }
  }

  // --------------------------------------------------------------- many runs

  function RunOf(targets: seq<Target>, store: Store, feed: nat -> (nat -> Reply), max: int, n: nat): Run
    decreases n
  {
    Fold(Begin(if n == 0 then store else RunOf(targets, store, feed, max, n - 1).store), targets, false, feed(n), max)
  }

  /** The cursors before run `n`. */
  function StoreBefore(targets: seq<Target>, store: Store, feed: nat -> (nat -> Reply), max: int, n: nat): Store {
    if n == 0 then store else RunOf(targets, store, feed, max, n - 1).store
  }

  /** Everything pulled of `t` before run `n`, in order. */
  function History(targets: seq<Target>, store: Store, feed: nat -> (nat -> Reply), max: int, n: nat, t: Target): seq<Done> {
    if n == 0 then [] else History(targets, store, feed, max, n - 1, t) + Pulled(RunOf(targets, store, feed, max, n - 1), t)
  }

  lemma {:induction false} StoreStaysLive(targets: seq<Target>, store: Store, feed: nat -> (nat -> Reply), max: int, n: nat)
    requires AllLive(store)
    ensures AllLive(StoreBefore(targets, store, feed, max, n))
  {
    if n > 0 {
      StoreStaysLive(targets, store, feed, max, n - 1);
      FoldKeeps(Begin(StoreBefore(targets, store, feed, max, n - 1)), targets, false, feed(n - 1), max);
    }
  }

  lemma SlicesJoin(ids: seq<string>, i: nat, j: nat)
    requires i <= j <= |ids|
    ensures ids[..i] + ids[i..j] == ids[..j]
  {}

  /** What was pulled so far is the part of the list before the cursor. */
  ghost predicate PrefixPulled(c: Option<Cursor>, history: seq<Done>) {
    Live(c) && Ids(history) == if c.None? then [] else c.value.fixtureIds[..c.value.nextIndex]
  }

  lemma PrefixGrows(before: Option<Cursor>, after: Option<Cursor>, history: seq<Done>, done: seq<Done>)
    requires PrefixPulled(before, history) && Moves(before, after, done)
    ensures PrefixPulled(after, history + done)
  {
    IdsConcat(history, done);
    if after.Some? {
      SlicesJoin(after.value.fixtureIds, SeasonBackfill.Start(before), after.value.nextIndex);
    }
  }

  lemma {:induction false} RunGrows(targets: seq<Target>, before: Store, world: nat -> Reply, max: int, t: Target, history: seq<Done>)
    requires Distinct(targets) && AllLive(before) && PrefixPulled(Read(before, t, false), history)
    ensures var r := Fold(Begin(before), targets, false, world, max); PrefixPulled(Read(r.store, t, false), history + Pulled(r, t))
  {
    var r := Fold(Begin(before), targets, false, world, max);
    FoldMoves(Begin(before), targets, world, max, t);
    PrefixGrows(Read(before, t, false), Read(r.store, t, false), history, Pulled(r, t));
  }

  lemma {:induction false} RunOfIs(targets: seq<Target>, store: Store, feed: nat -> (nat -> Reply), max: int, n: nat)
    ensures RunOf(targets, store, feed, max, n) == Fold(Begin(StoreBefore(targets, store, feed, max, n)), targets, false, feed(n), max)
  {}

  lemma HistoryStep(targets: seq<Target>, feed: nat -> (nat -> Reply), max: int, p: nat, t: Target)
    requires Distinct(targets)
    requires PrefixPulled(Read(StoreBefore(targets, map[], feed, max, p), t, false), History(targets, map[], feed, max, p, t))
    ensures PrefixPulled(Read(StoreBefore(targets, map[], feed, max, p + 1), t, false), History(targets, map[], feed, max, p + 1, t))
  {
    StoreStaysLive(targets, map[], feed, max, p);
    RunOfIs(targets, map[], feed, max, p);
    RunGrows(targets, StoreBefore(targets, map[], feed, max, p), feed(p), max, t, History(targets, map[], feed, max, p, t));
  }

  /**
    Over any number of runs, with any answers, budgets spent anywhere and hard caps met, what was
    pulled of a league-season is exactly the part of its discovered list before the cursor, in
    order: no fixture skipped, none twice.
  */
  lemma {:induction false} HistoryIsThePrefix(targets: seq<Target>, feed: nat -> (nat -> Reply), max: int, n: nat, t: Target)
    requires Distinct(targets)
    ensures PrefixPulled(Read(StoreBefore(targets, map[], feed, max, n), t, false), History(targets, map[], feed, max, n, t))
  {
    if n > 0 {
      var p: nat := n - 1;
      HistoryIsThePrefix(targets, feed, max, p, t);
      HistoryStep(targets, feed, max, p, t);
    }
  }

  function CallAt(r: Run, world: nat -> Reply, max: int, t: Target): Option<nat> {
    if r.stop == Going && t !in r.store && r.at + 1 < max && world(r.at).posture != Abort && world(r.at + 1).posture != Abort
    then Some(r.at + 1) else None
  }

  /**
    The call by which a run discovers `t`: the one after its standings, made if the run reaches an
    unstored `t` with two calls left, and meets no hard cap in either.
  */
  function DiscoveryCall(r: Run, targets: seq<Target>, world: nat -> Reply, max: int, t: Target): Option<nat>
    decreases |targets|
  {
    if |targets| == 0 then None
    else if targets[0] == t then CallAt(r, world, max, t)
    else DiscoveryCall(Step(r, targets[0], false, world, max), targets[1..], world, max, t)
  }

  /** A run with nothing stored for a league-season stores the list of its second reply, or nothing. */
  lemma TargetFinds(world: nat -> Reply, at: nat, max: int)
    ensures var v := TargetRun(None, world, at, max);
            && (v.stored.Some? <==> at + 1 < max && world(at).posture != Abort && world(at + 1).posture != Abort)
            && (v.stored.Some? ==> v.stored.value.fixtureIds == Discovered(world(at + 1).items) && at + 1 < v.place.at)
  {
    FirstRun(world, at, max);
    var q := Place(at + 1, After(Continue, world(at)));
    var r := Place(at + 2, After(q.mode, world(at + 1)));
    FromWalkMoves(Cursor(true, Discovered(world(at + 1).items), 0, true), world, r, max);
  }

  lemma StepGoesOn(r: Run, u: Target, world: nat -> Reply, max: int)
    requires AllLive(r.store)
    ensures r.at <= Step(r, u, false, world, max).at && AllLive(Step(r, u, false, world, max).store)
  {
    TargetMoves(Read(r.store, u, false), world, r.at, max);
  }

  lemma {:induction false} FoldGoesOn(r: Run, targets: seq<Target>, world: nat -> Reply, max: int)
    requires AllLive(r.store)
    ensures r.at <= Fold(r, targets, false, world, max).at
    decreases |targets|
  {
    if |targets| > 0 {
      StepGoesOn(r, targets[0], world, max);
      FoldGoesOn(Step(r, targets[0], false, world, max), targets[1..], world, max);
    }
  }

  /** The list of `t` in `f` is that of the reply to `call`, made by then; without a call there is none. */
  ghost predicate FoundBy(f: Run, world: nat -> Reply, t: Target, call: Option<nat>) {
    && (t in f.store <==> call.Some?)
    && (call.Some? ==> f.store[t].fixtureIds == Discovered(world(call.value).items) && call.value < f.at)
  }

  /** What a visit stored is the list of the reply to `call`, made by then; without a call it stored nothing. */
  ghost predicate VisitFound(v: Visit, world: nat -> Reply, call: Option<nat>) {
    && (v.stored.Some? <==> call.Some?)
    && (call.Some? ==> v.stored.value.fixtureIds == Discovered(world(call.value).items) && call.value < v.place.at)
  }

  lemma VisitOf(r: Run, world: nat -> Reply, max: int, t: Target) returns (v: Visit)
    requires t !in r.store && r.stop == Going
    ensures Step(r, t, false, world, max).store == Write(r.store, t, v.stored) && Step(r, t, false, world, max).at == v.place.at
    ensures VisitFound(v, world, CallAt(r, world, max, t))
  {
    v := TargetRun(None, world, r.at, max);
    TargetFinds(world, r.at, max);
  }

  lemma VisitFinds(store: Store, v: Visit, s: Run, world: nat -> Reply, t: Target, call: Option<nat>)
    requires t !in store && s.store == Write(store, t, v.stored) && s.at == v.place.at && VisitFound(v, world, call)
    ensures FoundBy(s, world, t, call)
  {}

  lemma StepFinds(r: Run, world: nat -> Reply, max: int, t: Target)
    requires t !in r.store
    ensures FoundBy(Step(r, t, false, world, max), world, t, CallAt(r, world, max, t))
  {
    if r.stop == Going {
      var v := VisitOf(r, world, max, t);
      VisitFinds(r.store, v, Step(r, t, false, world, max), world, t, CallAt(r, world, max, t));
    }
  }

  lemma FoundStays(s: Run, f: Run, world: nat -> Reply, t: Target, call: Option<nat>)
    requires FoundBy(s, world, t, call) && Read(f.store, t, false) == Read(s.store, t, false) && s.at <= f.at
    ensures FoundBy(f, world, t, call)
  {}

  /** A run stores an unstored league-season exactly by its discovery call, with that reply's list. */
  lemma {:induction false} FoldFinds(r: Run, targets: seq<Target>, world: nat -> Reply, max: int, t: Target)
    requires Distinct(targets) && t !in r.store && AllLive(r.store)
    ensures FoundBy(Fold(r, targets, false, world, max), world, t, DiscoveryCall(r, targets, world, max, t))
    decreases |targets|
  {
    if |targets| > 0 {
      var s := Step(r, targets[0], false, world, max);
      StepGoesOn(r, targets[0], world, max);
      if t == targets[0] {
        StepFinds(r, world, max, t);
        FoldLeaves(s, targets[1..], world, max, t);
        FoldGoesOn(s, targets[1..], world, max);
        FoundStays(s, Fold(s, targets[1..], false, world, max), world, t, DiscoveryCall(r, targets, world, max, t));
      } else {
        StepLeaves(r, targets[0], world, max, t);
        assert Read(s.store, t, false) == Read(r.store, t, false);
        FoldFinds(s, targets[1..], world, max, t);
      }
    }
  }

  /** What is stored is not discovered again. */
  lemma {:induction false} StoredIsNotFound(r: Run, targets: seq<Target>, world: nat -> Reply, max: int, t: Target)
    requires t in r.store
    ensures DiscoveryCall(r, targets, world, max, t) == None
    decreases |targets|
  {
    if |targets| > 0 && targets[0] != t {
      StepLeaves(r, targets[0], world, max, t);
      assert Read(Step(r, targets[0], false, world, max).store, t, false) == Read(r.store, t, false);
      StoredIsNotFound(Step(r, targets[0], false, world, max), targets[1..], world, max, t);
    }
  }

  lemma {:induction false} RunKeepsList(targets: seq<Target>, before: Store, world: nat -> Reply, max: int, t: Target)
    requires Distinct(targets) && AllLive(before) && t in before
    ensures var after := Fold(Begin(before), targets, false, world, max).store; t in after && after[t].fixtureIds == before[t].fixtureIds
  {
    FoldMoves(Begin(before), targets, world, max, t);
    assert Read(before, t, false) == Some(before[t]);
  }

  lemma {:induction false} StoreStep(targets: seq<Target>, store: Store, feed: nat -> (nat -> Reply), max: int, n: nat)
    ensures StoreBefore(targets, store, feed, max, n + 1) ==
            Fold(Begin(StoreBefore(targets, store, feed, max, n)), targets, false, feed(n), max).store
  {}

  /** The discovery call of `t` in run `k`, if that run makes one. */
  function FoundIn(targets: seq<Target>, feed: nat -> (nat -> Reply), max: int, k: nat, t: Target): Option<nat> {
    DiscoveryCall(Begin(StoreBefore(targets, map[], feed, max, k)), targets, feed(k), max, t)
  }

  /** Of the first `n` runs, exactly run `k` discovered `t`, with its call `i`. */
  ghost predicate FoundOnce(targets: seq<Target>, feed: nat -> (nat -> Reply), max: int, n: nat, t: Target, k: nat, i: nat) {
    && k < n && FoundIn(targets, feed, max, k, t) == Some(i) && i < RunOf(targets, map[], feed, max, k).at
    && forall j: nat :: j < n && j != k ==> FoundIn(targets, feed, max, j, t) == None
  }

  /** What a run does to the stored list of `t`: discovers it by `call`, or keeps it, or still has none. */
  ghost predicate Linked(before: Store, after: Store, call: Option<nat>, world: nat -> Reply, t: Target) {
    && (call.Some? <==> t !in before && t in after)
    && (call.Some? ==> after[t].fixtureIds == Discovered(world(call.value).items))
    && (t in before ==> t in after && after[t].fixtureIds == before[t].fixtureIds)
  }

  lemma {:induction false} RunLinks(targets: seq<Target>, before: Store, world: nat -> Reply, max: int, t: Target)
    requires Distinct(targets) && AllLive(before)
    ensures Linked(before, Fold(Begin(before), targets, false, world, max).store, DiscoveryCall(Begin(before), targets, world, max, t), world, t)
  {
    if t in before {
      RunKeepsList(targets, before, world, max, t);
      StoredIsNotFound(Begin(before), targets, world, max, t);
    } else {
      FoldFinds(Begin(before), targets, world, max, t);
    }
  }

  ghost predicate AllLinked(stores: nat -> Store, calls: nat -> Option<nat>, feed: nat -> (nat -> Reply), t: Target) {
    stores(0) == map[] && forall j: nat :: Linked(stores(j), stores(j + 1), calls(j), feed(j), t)
  }

  ghost predicate OnlyCall(calls: nat -> Option<nat>, n: nat, k: nat) {
    k < n && calls(k).Some? && forall j: nat :: j < n && j != k ==> calls(j) == None
  }

  lemma {:induction false} NoCallYet(stores: nat -> Store, calls: nat -> Option<nat>, feed: nat -> (nat -> Reply), n: nat, t: Target)
    requires AllLinked(stores, calls, feed, t) && t !in stores(n)
    ensures forall j: nat :: j < n ==> calls(j) == None
  {
    if n > 0 {
      var p: nat := n - 1;
      assert Linked(stores(p), stores(p + 1), calls(p), feed(p), t);
      NoCallYet(stores, calls, feed, p, t);
    }
  }

  lemma {:induction false} OneCall(stores: nat -> Store, calls: nat -> Option<nat>, feed: nat -> (nat -> Reply), n: nat, t: Target) returns (k: nat)
    requires AllLinked(stores, calls, feed, t) && t in stores(n)
    ensures OnlyCall(calls, n, k) && stores(n)[t].fixtureIds == Discovered(feed(k)(calls(k).value).items)
  {
    var p: nat := n - 1;
    assert Linked(stores(p), stores(p + 1), calls(p), feed(p), t);
    if t in stores(p) {
      k := OneCall(stores, calls, feed, p, t);
    } else {
      NoCallYet(stores, calls, feed, p, t);
      k := p;
    }
  }

  lemma FoundLinks(targets: seq<Target>, feed: nat -> (nat -> Reply), max: int, j: nat, t: Target)
    requires Distinct(targets)
    ensures Linked(StoreBefore(targets, map[], feed, max, j), StoreBefore(targets, map[], feed, max, j + 1), FoundIn(targets, feed, max, j, t), feed(j), t)
  {
    StoreStep(targets, map[], feed, max, j);
    StoreStaysLive(targets, map[], feed, max, j);
    RunLinks(targets, StoreBefore(targets, map[], feed, max, j), feed(j), max, t);
  }

  lemma {:induction false} FoundByACallMade(targets: seq<Target>, feed: nat -> (nat -> Reply), max: int, k: nat, t: Target)
    requires Distinct(targets) && FoundIn(targets, feed, max, k, t).Some?
    ensures FoundIn(targets, feed, max, k, t).value < RunOf(targets, map[], feed, max, k).at
  {
    var before := StoreBefore(targets, map[], feed, max, k);
    StoreStaysLive(targets, map[], feed, max, k);
    if t in before {
      StoredIsNotFound(Begin(before), targets, feed(k), max, t);
    } else {
      FoldFinds(Begin(before), targets, feed(k), max, t);
    }
  }

  lemma OneCallOfRuns(targets: seq<Target>, feed: nat -> (nat -> Reply), max: int, n: nat, t: Target, calls: nat -> Option<nat>) returns (k: nat)
    requires Distinct(targets) && t in StoreBefore(targets, map[], feed, max, n)
    requires forall j: nat :: calls(j) == FoundIn(targets, feed, max, j, t)
    ensures OnlyCall(calls, n, k)
    ensures StoreBefore(targets, map[], feed, max, n)[t].fixtureIds == Discovered(feed(k)(calls(k).value).items)
  {
    var stores := (j: nat) => StoreBefore(targets, map[], feed, max, j);
    forall j: nat
      ensures Linked(stores(j), stores(j + 1), calls(j), feed(j), t)
    {
      FoundLinks(targets, feed, max, j, t);
    }
    k := OneCall(stores, calls, feed, n, t);
  }

  /** A stored list is what the reply to its one discovery call held, and stays that list. */
  lemma ListIsOneReply(targets: seq<Target>, feed: nat -> (nat -> Reply), max: int, n: nat, t: Target) returns (k: nat, i: nat)
    requires Distinct(targets) && t in StoreBefore(targets, map[], feed, max, n)
    ensures FoundOnce(targets, feed, max, n, t, k, i)
    ensures StoreBefore(targets, map[], feed, max, n)[t].fixtureIds == Discovered(feed(k)(i).items)
  {
    var calls := (j: nat) => FoundIn(targets, feed, max, j, t);
    k := OneCallOfRuns(targets, feed, max, n, t, calls);
    i := calls(k).value;
    FoundByACallMade(targets, feed, max, k, t);
    assert forall j: nat :: j < n && j != k ==> calls(j) == None;
  }

  /**
    Over any number of runs, a stored season is complete with nothing pulled exactly when the reply
    to its one discovery call held no finalised fixture.
  */
  lemma CompleteWithNothingPulledIff(targets: seq<Target>, feed: nat -> (nat -> Reply), max: int, n: nat, t: Target)
    returns (k: nat, i: nat)
    requires Distinct(targets) && t in StoreBefore(targets, map[], feed, max, n)
    ensures FoundOnce(targets, feed, max, n, t, k, i)
    ensures IsCursorComplete(Read(StoreBefore(targets, map[], feed, max, n), t, false)) && History(targets, map[], feed, max, n, t) == [] <==>
            !HoldsFinalised(feed(k)(i).items)
  {
    var c := StoreBefore(targets, map[], feed, max, n)[t];
    k, i := ListIsOneReply(targets, feed, max, n, t);
    DiscoveredIsEmptyIff(feed(k)(i).items);
    HistoryIsThePrefix(targets, feed, max, n, t);
    EmptyIds(History(targets, map[], feed, max, n, t), c);
  }

  lemma EmptyIds(history: seq<Done>, c: Cursor)
    requires PrefixPulled(Some(c), history)
    ensures IsCursorComplete(Some(c)) && history == [] <==> c.fixtureIds == []
  {
    IdsLength(history);
    if c.fixtureIds == [] {
      assert c.fixtureIds[..c.nextIndex] == [];
    }
  }

  // -------------------------------------------------------------- completion

  ghost predicate AllComplete(store: Store, targets: seq<Target>) {
    forall t :: t in targets ==> IsCursorComplete(Read(store, t, false))
  }

  ghost predicate Grows(before: Option<Cursor>, after: Option<Cursor>) {
    after.Some? && (before.None? || before.value.nextIndex < after.value.nextIndex)
  }

  lemma TargetGrows(stored: Option<Cursor>, world: nat -> Reply, at: nat, max: int)
    requires Live(stored) && !IsCursorComplete(stored) && NoAbort(world) && at + 2 <= max
    ensures Grows(stored, TargetRun(stored, world, at, max).stored)
  {
    if stored.None? {
      FirstRun(world, at, max);
      var q := Place(at + 1, After(Continue, world(at)));
      var r := Place(at + 2, After(q.mode, world(at + 1)));
      FromWalkMoves(Cursor(true, Discovered(world(at + 1).items), 0, true), world, r, max);
    } else {
      WalkCount(stored.value, world, Place(at, Continue), max);
      WalkEnds(stored.value, world, Place(at, Continue), max);
      assert 1 <= FixturesFor(max - at);
    }
  }

  /** A finished league-season costs nothing. */
  lemma TargetRests(stored: Option<Cursor>, world: nat -> Reply, at: nat, max: int)
    requires Live(stored) && IsCursorComplete(stored)
    ensures TargetRun(stored, world, at, max) == Visit(stored, stored, Place(at, Continue), [])
  {}

  lemma {:induction false} SomethingGrows(r: Run, targets: seq<Target>, world: nat -> Reply, max: int) returns (t: Target)
    requires AllLive(r.store) && Distinct(targets) && NoAbort(world) && r.stop == Going && r.at + 2 <= max
    requires !AllComplete(r.store, targets)
    ensures t in targets && Grows(Read(r.store, t, false), Read(Fold(r, targets, false, world, max).store, t, false))
    decreases |targets|
  {
    var head, rest := targets[0], targets[1..];
    var s := Step(r, head, false, world, max);
    if IsCursorComplete(Read(r.store, head, false)) {
      TargetRests(Read(r.store, head, false), world, r.at, max);
      assert s.store == r.store;
      assert targets == [head] + rest;
      t := SomethingGrows(s, rest, world, max);
      StepLeaves(r, head, world, max, t);
    } else {
      t := head;
      TargetGrows(Read(r.store, head, false), world, r.at, max);
      FoldLeaves(s, rest, world, max, head);
    }
  }

  function Undiscovered(store: Store): Target -> int { (t: Target) => if t in store then 0 else 1 }

  function Unprocessed(store: Store): Target -> int {
    (t: Target) => if t in store then Max0(|store[t].fixtureIds| - store[t].nextIndex) else 0
  }

  lemma MovesMeasure(before: Store, after: Store, t: Target, done: seq<Done>)
    requires Moves(Read(before, t, false), Read(after, t, false), done)
    ensures Undiscovered(after)(t) <= Undiscovered(before)(t)
    ensures Undiscovered(after)(t) == Undiscovered(before)(t) ==> Unprocessed(after)(t) <= Unprocessed(before)(t)
    ensures Grows(Read(before, t, false), Read(after, t, false)) ==>
      Undiscovered(after)(t) < Undiscovered(before)(t) || Unprocessed(after)(t) < Unprocessed(before)(t)
  {}

  /** A run with two calls to spend and no hard cap brings the work left down. */
  lemma {:induction false} RunShrinks(targets: seq<Target>, store: Store, world: nat -> Reply, max: int)
    requires AllLive(store) && Distinct(targets) && NoAbort(world) && 2 <= max && !AllComplete(store, targets)
    ensures var after := Fold(Begin(store), targets, false, world, max).store;
            var u, u' := Sum(targets, Undiscovered(store)), Sum(targets, Undiscovered(after));
            u' < u || (u' == u && Sum(targets, Unprocessed(after)) < Sum(targets, Unprocessed(store)))
  {
    var f := Fold(Begin(store), targets, false, world, max);
    forall i | 0 <= i < |targets|
      ensures Undiscovered(f.store)(targets[i]) <= Undiscovered(store)(targets[i])
      ensures Undiscovered(f.store)(targets[i]) == Undiscovered(store)(targets[i]) ==>
                Unprocessed(f.store)(targets[i]) <= Unprocessed(store)(targets[i])
    {
      FoldMoves(Begin(store), targets, world, max, targets[i]);
      MovesMeasure(store, f.store, targets[i], Pulled(f, targets[i]));
    }
    SumMonotone(targets, Undiscovered(f.store), Undiscovered(store));
    if Sum(targets, Undiscovered(f.store)) == Sum(targets, Undiscovered(store)) {
      forall i | 0 <= i < |targets|
        ensures Undiscovered(f.store)(targets[i]) == Undiscovered(store)(targets[i])
      {
        if Undiscovered(f.store)(targets[i]) < Undiscovered(store)(targets[i]) {
          SumStrict(targets, i, Undiscovered(f.store), Undiscovered(store));
        }
      }
      var t := SomethingGrows(Begin(store), targets, world, max);
      var i :| 0 <= i < |targets| && targets[i] == t;
      FoldMoves(Begin(store), targets, world, max, t);
      MovesMeasure(store, f.store, t, Pulled(f, t));
      SumStrict(targets, i, Unprocessed(f.store), Unprocessed(store));
    }
  }

  lemma {:induction false} MeasuresAreNatural(targets: seq<Target>, store: Store)
    ensures 0 <= Sum(targets, Undiscovered(store)) && 0 <= Sum(targets, Unprocessed(store))
  {
    SumNonNegative(targets, Undiscovered(store));
    SumNonNegative(targets, Unprocessed(store));
  }

  ghost predicate Lower(u: nat -> nat, p: nat -> nat, k: nat) {
    u(k + 1) < u(k) || (u(k + 1) == u(k) && p(k + 1) < p(k))
  }

  /** What comes down at every moment it is not done, is done at some moment. */
  lemma {:induction false} Descends(u: nat -> nat, p: nat -> nat, done: nat -> bool, n: nat) returns (m: nat)
    requires forall k: nat :: done(k) || Lower(u, p, k)
    ensures done(m)
    decreases u(n), p(n)
  {
    if done(n) {
      m := n;
    } else {
      assert Lower(u, p, n);
      m := Descends(u, p, done, n + 1);
    }
  }

  /** Seasons to discover, and fixtures to pull. */
  function SeasonsLeft(targets: seq<Target>, store: Store): nat { Max0(Sum(targets, Undiscovered(store))) }

  function FixturesLeft(targets: seq<Target>, store: Store): nat { Max0(Sum(targets, Unprocessed(store))) }

  ghost predicate LessLeft(targets: seq<Target>, before: Store, after: Store) {
    || SeasonsLeft(targets, after) < SeasonsLeft(targets, before)
    || (SeasonsLeft(targets, after) == SeasonsLeft(targets, before) && FixturesLeft(targets, after) < FixturesLeft(targets, before))
  }

  lemma {:induction false} RunLowers(targets: seq<Target>, store: Store, world: nat -> Reply, max: int)
    requires AllLive(store) && Distinct(targets) && 2 <= max && NoAbort(world) && !AllComplete(store, targets)
    ensures LessLeft(targets, store, Fold(Begin(store), targets, false, world, max).store)
  {
    RunShrinks(targets, store, world, max);
    MeasuresAreNatural(targets, store);
    MeasuresAreNatural(targets, Fold(Begin(store), targets, false, world, max).store);
  }

  lemma DoneOrLess(targets: seq<Target>, store: Store, feed: nat -> (nat -> Reply), max: int, k: nat)
    requires AllLive(store) && Distinct(targets) && 2 <= max && NoAbort(feed(k))
    ensures AllComplete(StoreBefore(targets, store, feed, max, k), targets)
         || LessLeft(targets, StoreBefore(targets, store, feed, max, k), StoreBefore(targets, store, feed, max, k + 1))
  {
    var before := StoreBefore(targets, store, feed, max, k);
    if !AllComplete(before, targets) {
      StoreStaysLive(targets, store, feed, max, k);
      StoreStep(targets, store, feed, max, k);
      RunLowers(targets, before, feed(k), max);
    }
  }

  lemma SomeRunIsDone(stores: nat -> Store, targets: seq<Target>, n: nat) returns (m: nat)
    requires forall k: nat :: AllComplete(stores(k), targets) || LessLeft(targets, stores(k), stores(k + 1))
    ensures AllComplete(stores(m), targets)
  {
    var u := (k: nat) => SeasonsLeft(targets, stores(k));
    var p := (k: nat) => FixturesLeft(targets, stores(k));
    var done := (k: nat) => AllComplete(stores(k), targets);
    forall k: nat
      ensures done(k) || Lower(u, p, k)
    {
      assert AllComplete(stores(k), targets) || LessLeft(targets, stores(k), stores(k + 1));
    }
    m := Descends(u, p, done, n);
  }

  lemma CompletesFrom(targets: seq<Target>, store: Store, feed: nat -> (nat -> Reply), max: int, n: nat) returns (m: nat)
    requires AllLive(store) && Distinct(targets) && 2 <= max && forall k: nat :: NoAbort(feed(k))
    ensures AllComplete(StoreBefore(targets, store, feed, max, m), targets)
  {
    var stores := (k: nat) => StoreBefore(targets, store, feed, max, k);
    forall k: nat
      ensures AllComplete(stores(k), targets) || LessLeft(targets, stores(k), stores(k + 1))
    {
      DoneOrLess(targets, store, feed, max, k);
    }
    m := SomeRunIsDone(stores, targets, n);
  }

  lemma {:induction false} CompleteFold(r: Run, targets: seq<Target>, world: nat -> Reply, max: int)
    requires AllLive(r.store) && AllComplete(r.store, targets) && r.stop == Going && r.allComplete && r.at < max
    ensures var f := Fold(r, targets, false, world, max); f.store == r.store && f.at == r.at && StatusOf(f) == Complete
    decreases |targets|
  {
    if |targets| > 0 {
      TargetRests(Read(r.store, targets[0], false), world, r.at, max);
      assert Step(r, targets[0], false, world, max).store == r.store;
      CompleteFold(Step(r, targets[0], false, world, max), targets[1..], world, max);
    }
  }

  /**
    Repeated runs finish: with a budget of two calls or more, cursors that stay in the cache, and
    no hard cap met, some run reports `complete`, and makes no call; by then every discovered
    fixture of every league-season has been pulled, once, in order.
  */
  lemma RepeatedRunsComplete(targets: seq<Target>, feed: nat -> (nat -> Reply), max: int) returns (n: nat)
    requires Distinct(targets) && 2 <= max && forall k: nat :: NoAbort(feed(k))
    ensures StatusOf(RunOf(targets, map[], feed, max, n)) == Complete && RunOf(targets, map[], feed, max, n).at == 0
    ensures forall t :: t in targets ==>
      var store := StoreBefore(targets, map[], feed, max, n);
      t in store && Ids(History(targets, map[], feed, max, n, t)) == store[t].fixtureIds
  {
    n := CompletesFrom(targets, map[], feed, max, 0);
    var store := StoreBefore(targets, map[], feed, max, n);
    StoreStaysLive(targets, map[], feed, max, n);
    CompleteFold(Begin(store), targets, feed(n), max);
    forall t | t in targets
      ensures t in store && Ids(History(targets, map[], feed, max, n, t)) == store[t].fixtureIds
    {
      HistoryIsThePrefix(targets, feed, max, n, t);
      assert IsCursorComplete(Read(store, t, false));
      assert store[t].fixtureIds[..|store[t].fixtureIds|] == store[t].fixtureIds;
    }
  }

  /** Once stopped, a run stores nothing more. */
  lemma {:induction false} StoppedStores(r: Run, targets: seq<Target>, world: nat -> Reply, max: int)
    requires r.stop != Going
    ensures Fold(r, targets, false, world, max).store == r.store
    decreases |targets|
  {
    if |targets| > 0 {
      StoppedStores(Step(r, targets[0], false, world, max), targets[1..], world, max);
    }
  }

  /** With a budget of one call no run stores anything, however many there are. */
  lemma {:induction false} OneCallNeverStarts(targets: seq<Target>, feed: nat -> (nat -> Reply), n: nat)
    ensures StoreBefore(targets, map[], feed, 1, n) == map[]
  {
    if n > 0 {
      OneCallNeverStarts(targets, feed, n - 1);
      if |targets| > 0 {
        OneCallNeverDiscovers(feed(n - 1), 1);
        StoppedStores(Step(Begin(map[]), targets[0], false, feed(n - 1), 1), targets[1..], feed(n - 1), 1);
      }
    }
  }

  /** From nothing stored and with no hard cap, the runs ever complete exactly when the budget is at least two calls. */
  lemma CompletesIffTwoCalls(targets: seq<Target>, feed: nat -> (nat -> Reply), max: int)
    requires Distinct(targets) && 0 < |targets| && 0 < max && forall k: nat :: NoAbort(feed(k))
    ensures (exists n: nat :: AllComplete(StoreBefore(targets, map[], feed, max, n), targets)) <==> 2 <= max
  {
    if 2 <= max {
      var n := CompletesFrom(targets, map[], feed, max, 0);
    } else {
      forall n: nat
        ensures !AllComplete(StoreBefore(targets, map[], feed, max, n), targets)
      {
        OneCallNeverStarts(targets, feed, n);
        assert targets[0] in targets;
      }
    }
  }
}
