/**
  The enrichment run repeated (src/workflows/provider-enrichment.ts): runs over the same
  league-seasons, one after the other, each resuming the cursors the ones before it left.
*/
module PageCursorProgress {
  import opened Common
  import opened Sums
  import opened PageCursor

  /** A fetched page that no check holds back, accepted by the ingest client. */
  predicate Good(reply: Reply) {
    && reply.token && reply.kind.Fetched? && reply.kind.ingested
    && 0 < reply.kind.page.entries && (reply.kind.page.errors ==> 0 < reply.kind.page.rows)
  }

  /** No page names more pages than the loop goes through. */
  ghost predicate TotalsFit(world: nat -> Reply) {
    forall k: nat :: world(k).kind.Fetched? ==> world(k).kind.page.total <= MAX_PAGES_PER_TARGET
  }

  /** A cursor that later runs can resume: started since `since`, and not past the last page while it is open. */
  predicate Fits(c: Cursor, since: int) {
    && 1 <= c.nextPage && since <= c.startedAtMs
    && (c.completedAtMs.None? ==> c.nextPage <= MAX_PAGES_PER_TARGET && c.totalPages <= MAX_PAGES_PER_TARGET)
  }

  predicate StoreFits(store: Store, since: int) { forall t :: t in store ==> Fits(store[t], since) }

  predicate Done(store: Store, t: Target) { t in store && store[t].completedAtMs.Some? }

  /** The pages that may still be missing of each league-season. */
  function Missing(store: Store): Target -> int {
    (t: Target) =>
      if t !in store then MAX_PAGES_PER_TARGET
      else if store[t].completedAtMs.Some? then 0
      else MAX_PAGES_PER_TARGET + 1 - store[t].nextPage
  }

  /** `later` misses no page of any league-season that `store` did not miss. */
  ghost predicate NoSetback(store: Store, later: Store) { forall t :: Missing(later)(t) <= Missing(store)(t) }

  // ------------------------------------------------------------- one visit

  lemma {:induction false} LoopFits(c: Cursor, limit: nat, run: Progress, world: nat -> Reply, since: int)
    requires run.stop.None? && c.completedAtMs.None? && Fits(c, since) && TotalsFit(world)
    ensures var l := PageLoop(c, limit, run, world); Fits(l.cursor, since) && c.nextPage <= l.cursor.nextPage
    decreases MAX_PAGES_PER_TARGET + 1 - c.nextPage
  {
    if !AlreadyDone(c) && run.callsUsed < limit {
      var (after, turn) := Taken(c, limit, run, world);
      TakenIs(c, limit, run, world);
      if turn.PageAccepted? {
        var next := Advanced(c, turn.page, turn.atMs);
        assert turn.page.total <= MAX_PAGES_PER_TARGET;
        if next.completedAtMs.None? && turn.posture == Continue {
          LoopFits(next, limit, after, world, since);
        }
      }
    }
  }

  /** With a call left and a good first reply, a visit accepts a page or finds that none was missing. */
  lemma {:induction false} LoopMoves(c: Cursor, limit: nat, run: Progress, world: nat -> Reply, since: int)
    requires run.stop.None? && c.completedAtMs.None? && Fits(c, since) && TotalsFit(world)
    requires run.callsUsed < limit && Good(world(run.attempts))
    ensures var l := PageLoop(c, limit, run, world);
            l.writes != [] && (l.cursor.completedAtMs.Some? || c.nextPage < l.cursor.nextPage)
  {
    if !AlreadyDone(c) {
      var (after, turn) := Taken(c, limit, run, world);
      TakenIs(c, limit, run, world);
      assert turn == PageAccepted(world(run.attempts).kind.page, world(run.attempts).atMs, world(run.attempts).kind.after);
      var next := Advanced(c, turn.page, turn.atMs);
      if next.completedAtMs.None? && turn.posture == Continue {
        LoopFits(next, limit, after, world, since);
      }
    }
  }

  /** A run that holds nothing and resets nothing, started within the window. */
  predicate Resumes(job: Job, since: int) {
    job.held == {} && !job.reset && since <= job.nowMs <= since + job.windowMs
  }

  lemma VisitFits(o: Overall, t: Target, job: Job, world: nat -> Reply, since: int)
    requires StoreFits(o.store, since) && Resumes(job, since) && TotalsFit(world)
    ensures var v := VisitTarget(o, t, job, world); StoreFits(v.store, since) && NoSetback(o.store, v.store)
  {
    var existing := ReadCursor(o.store, t, job.reset, job.nowMs, job.windowMs);
    if o.run.stop.None? && !Done(o.store, t) {
      var start := Opening(existing, job.nowMs);
      LoopFits(start, job.limit, o.run, world, since);
      LastWrite(start, job.limit, o.run, world);
    }
  }

  /** A run's first call goes to the first league-season that is not done. */
  lemma FirstVisit(store: Store, statuses: seq<Status>, t: Target, job: Job, world: nat -> Reply, since: int)
    requires StoreFits(store, since) && Resumes(job, since) && TotalsFit(world)
    ensures var o := Overall(store, Progress(0, 0, 0, None), statuses);
            var v := VisitTarget(o, t, job, world);
            if Done(store, t) then v == o.(statuses := statuses + [Fresh])
            else 1 <= job.limit && Good(world(0)) ==> Missing(v.store)(t) < Missing(store)(t)
  {
    var run := Progress(0, 0, 0, None);
    if !Done(store, t) && 1 <= job.limit && Good(world(0)) {
      var start := Opening(ReadCursor(store, t, job.reset, job.nowMs, job.windowMs), job.nowMs);
      LoopMoves(start, job.limit, run, world, since);
      LoopFits(start, job.limit, run, world, since);
      LastWrite(start, job.limit, run, world);
    }
  }

  // --------------------------------------------------------------- one run

  lemma {:induction false} VisitsFit(o: Overall, targets: seq<Target>, job: Job, world: nat -> Reply, since: int)
    requires StoreFits(o.store, since) && Resumes(job, since) && TotalsFit(world)
    ensures var v := VisitAll(o, targets, job, world); StoreFits(v.store, since) && NoSetback(o.store, v.store)
    decreases |targets|
  {
    if |targets| > 0 {
      VisitFits(o, targets[0], job, world, since);
      VisitsFit(VisitTarget(o, targets[0], job, world), targets[1..], job, world, since);
    }
  }

  /** Some league-season misses fewer pages after the run, if any missed one before it. */
  lemma {:induction false} VisitsMove(store: Store, statuses: seq<Status>, targets: seq<Target>, i: nat, job: Job, world: nat -> Reply, since: int)
    returns (moved: nat)
    requires StoreFits(store, since) && Resumes(job, since) && TotalsFit(world)
    requires 1 <= job.limit && Good(world(0)) && i < |targets| && !Done(store, targets[i])
    ensures moved < |targets|
    ensures var v := VisitAll(Overall(store, Progress(0, 0, 0, None), statuses), targets, job, world);
            Missing(v.store)(targets[moved]) < Missing(store)(targets[moved])
    decreases |targets|
  {
    var o := Overall(store, Progress(0, 0, 0, None), statuses);
    var v := VisitTarget(o, targets[0], job, world);
    FirstVisit(store, statuses, targets[0], job, world, since);
    if Done(store, targets[0]) {
      var rest := VisitsMove(store, statuses + [Fresh], targets[1..], i - 1, job, world, since);
      moved := rest + 1;
    } else {
      VisitFits(o, targets[0], job, world, since);
      VisitsFit(v, targets[1..], job, world, since);
      moved := 0;
    }
  }

  // ------------------------------------------------------------- many runs

  /** What repeated runs are given: when each starts, and the replies each meets. */
  datatype Feed = Feed(starts: nat -> int, worlds: nat -> nat -> Reply, windowMs: int, limit: nat)

  function JobOf(f: Feed, n: nat): Job { Job({}, false, f.starts(n), f.windowMs, f.limit) }

  /** The store after `n` runs. */
  function AfterRuns(initial: Store, targets: seq<Target>, f: Feed, n: nat): Store {
    if n == 0 then initial
    else VisitAll(Launch(AfterRuns(initial, targets, f, n - 1)), targets, JobOf(f, n - 1), f.worlds(n - 1)).store
  }

  /** The first `runs` runs start within one window, each meets a good first reply, and no total is too large. */
  ghost predicate WellFed(f: Feed, runs: nat, since: int) {
    forall n: nat :: n < runs ==>
      since <= f.starts(n) <= since + f.windowMs && Good(f.worlds(n)(0)) && TotalsFit(f.worlds(n))
  }

  function MissingOf(store: Store, targets: seq<Target>): int { Sum(targets, Missing(store)) }

  lemma MissingIsNat(store: Store, targets: seq<Target>, since: int)
    requires StoreFits(store, since)
    ensures 0 <= MissingOf(store, targets) <= MAX_PAGES_PER_TARGET * |targets|
    ensures MissingOf(store, targets) == 0 <==> forall i :: 0 <= i < |targets| ==> Done(store, targets[i])
  {
    assert forall t :: 0 <= Missing(store)(t) <= MAX_PAGES_PER_TARGET && (Missing(store)(t) == 0 <==> Done(store, t));
    SumNonNegative(targets, Missing(store));
    SumAtMost(targets, Missing(store));
    if i: nat :| i < |targets| && !Done(store, targets[i]) {
      SumAtLeastMember(targets, i, Missing(store));
    } else {
      SumZeroIfDone(store, targets);
    }
  }

  lemma {:induction false} SumZeroIfDone(store: Store, targets: seq<Target>)
    requires forall i :: 0 <= i < |targets| ==> Done(store, targets[i])
    ensures Sum(targets, Missing(store)) == 0
  {
    SumZero(targets, Missing(store));
  }

  lemma {:induction false} SumAtMost(targets: seq<Target>, f: Target -> int)
    requires forall i :: 0 <= i < |targets| ==> f(targets[i]) <= MAX_PAGES_PER_TARGET
    ensures Sum(targets, f) <= MAX_PAGES_PER_TARGET * |targets|
  {
    if |targets| > 0 {
      SumAtMost(targets[..|targets| - 1], f);
    }
  }

  /** A run keeps the store resumable and, while a page is missing, brings at least one. */
  lemma {:induction false} RunMoves(store: Store, targets: seq<Target>, f: Feed, n: nat, since: int)
    requires StoreFits(store, since) && 1 <= f.limit && WellFed(f, n + 1, since)
    ensures var later := VisitAll(Launch(store), targets, JobOf(f, n), f.worlds(n)).store;
            StoreFits(later, since) && MissingOf(later, targets) <= Max0(MissingOf(store, targets) - 1)
  {
    var job, world := JobOf(f, n), f.worlds(n);
    var later := VisitAll(Launch(store), targets, job, world).store;
    VisitsFit(Launch(store), targets, job, world, since);
    MissingIsNat(store, targets, since);
    if i: nat :| i < |targets| && !Done(store, targets[i]) {
      var moved := VisitsMove(store, [], targets, i, job, world, since);
      SumStrict(targets, moved, Missing(later), Missing(store));
    } else {
      SumMonotone(targets, Missing(later), Missing(store));
    }
  }

  /** The store misses at most `missing` pages, and later runs can resume it. */
  ghost predicate Misses(store: Store, targets: seq<Target>, since: int, missing: int) {
    StoreFits(store, since) && MissingOf(store, targets) <= missing
  }

  lemma NextRunMoves(initial: Store, targets: seq<Target>, f: Feed, n: nat, since: int, missing: int)
    requires Misses(AfterRuns(initial, targets, f, n), targets, since, Max0(missing)) && 1 <= f.limit && WellFed(f, n + 1, since)
    ensures Misses(AfterRuns(initial, targets, f, n + 1), targets, since, Max0(missing - 1))
  {
    RunMoves(AfterRuns(initial, targets, f, n), targets, f, n, since);
  }

  lemma {:induction false} RunsMove(initial: Store, targets: seq<Target>, f: Feed, n: nat, since: int)
    requires StoreFits(initial, since) && 1 <= f.limit && WellFed(f, n, since)
    ensures Misses(AfterRuns(initial, targets, f, n), targets, since, Max0(MissingOf(initial, targets) - n))
  {
    if n == 0 {
      MissingIsNat(initial, targets, since);
    } else {
      var p: nat := n - 1;
      RunsMove(initial, targets, f, p, since);
      NextRunMoves(initial, targets, f, p, since, MissingOf(initial, targets) - p);
    }
  }

  ghost predicate AllDone(store: Store, targets: seq<Target>) { forall i :: 0 <= i < |targets| ==> Done(store, targets[i]) }

  /**
    Repeated runs finish. However each run goes after its first reply (refused, denied, failing,
    stopped by its limit), once as many runs as pages were missing have each met one good first
    reply, within one window, every league-season's cursor is completed.
  */
  lemma {:induction false} RepeatedRunsFinish(initial: Store, targets: seq<Target>, f: Feed, n: nat, since: int)
    requires StoreFits(initial, since) && 1 <= f.limit && WellFed(f, n, since)
    requires MissingOf(initial, targets) <= n
    ensures AllDone(AfterRuns(initial, targets, f, n), targets)
  {
    RunsMove(initial, targets, f, n, since);
    MissingIsNat(AfterRuns(initial, targets, f, n), targets, since);
  }

  // --------------------------------------------------- exactly when they do

  lemma {:induction false} NoCallsNoPages(o: Overall, targets: seq<Target>, job: Job, world: nat -> Reply)
    requires o.store == map[] && job.limit == 0
    ensures VisitAll(o, targets, job, world).store == map[]
    decreases |targets|
  {
    if |targets| > 0 {
      NoCallsNoPages(VisitTarget(o, targets[0], job, world), targets[1..], job, world);
    }
  }

  lemma {:induction false} NoCallsNoStore(targets: seq<Target>, f: Feed, n: nat)
    requires f.limit == 0
    ensures AfterRuns(map[], targets, f, n) == map[]
  {
    if n > 0 {
      NoCallsNoStore(targets, f, n - 1);
      NoCallsNoPages(Launch(map[]), targets, JobOf(f, n - 1), f.worlds(n - 1));
    }
  }

  /** From nothing, 250 runs for each league-season are enough exactly when a run may make a call. */
  lemma {:induction false} FinishesIffACall(targets: seq<Target>, f: Feed, since: int)
    requires 0 < |targets| && WellFed(f, MAX_PAGES_PER_TARGET * |targets|, since)
    ensures AllDone(AfterRuns(map[], targets, f, MAX_PAGES_PER_TARGET * |targets|), targets) <==> 1 <= f.limit
  {
    var n := MAX_PAGES_PER_TARGET * |targets|;
    if f.limit == 0 {
      NoCallsNoStore(targets, f, n);
      assert !Done(map[], targets[0]);
    } else {
      MissingIsNat(map[], targets, since);
      RepeatedRunsFinish(map[], targets, f, n, since);
    }
  }
}
