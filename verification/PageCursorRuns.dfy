/**
  Many enrichment runs over one cursor store (src/workflows/provider-enrichment.ts), in any
  number of processes. Each `await` ends a step; a process holds a league-season while a run
  visits it; runs stop, fail and crash anywhere, and the store may lose a cursor at any time.
*/
module PageCursorRuns {
  import opened Common
  import opened Sums
  import opened PageCursor

  datatype Phase = Reading | AtTop | Fetching | Ingesting(page: Page) | Writing(next: Cursor) | Over

  /** One run's visit of one league-season; `nowMs` is the run's start, or what its request says it is. */
  datatype Visit = Visit(process: nat, target: Target, nowMs: int, reset: bool, phase: Phase, cursor: Cursor)

  /** The ingest client accepted the rows of this page of this league-season at this time. */
  datatype Ingest = Ingest(target: Target, page: nat, body: Page, atMs: int)

  datatype World = World(clock: int, store: Store, ingested: set<Ingest>, held: set<(nat, Target)>, visits: seq<Visit>)

  datatype Step =
    | Pass(ms: nat)
    | Begin(process: nat, target: Target, nowMs: int, reset: bool)
    | CursorRead(v: nat)
    | Look(v: nat)                          // the top of the page loop
    | Leave(v: nat)                         // limit, limiter, quota posture or a failed fetch
    | PageComes(v: nat, page: Page)
    | IngestDone(v: nat, ok: bool)
    | CursorStored(v: nat)
    | StoreThrows(v: nat, landed: bool)
    | StoreLoses(target: Target)            // TTL or eviction
    | Crash(process: nat)

  predicate Enabled(w: World, s: Step) {
    match s
    case Pass(_) => true
    case Begin(p, t, _, _) => (p, t) !in w.held
    case CursorRead(v) => v < |w.visits| && w.visits[v].phase == Reading
    case Look(v) => v < |w.visits| && w.visits[v].phase == AtTop
    case Leave(v) => v < |w.visits| && w.visits[v].phase in {AtTop, Fetching}
    case PageComes(v, page) => v < |w.visits| && w.visits[v].phase == Fetching && !Faulty(w.visits[v].cursor, page)
    case IngestDone(v, _) => v < |w.visits| && w.visits[v].phase.Ingesting?
    case CursorStored(v) => v < |w.visits| && w.visits[v].phase.Writing?
    case StoreThrows(v, _) => v < |w.visits| && w.visits[v].phase.Writing?
    case StoreLoses(_) => true
    case Crash(_) => true
  }

  function ReadResult(w: World, me: Visit, windowMs: int): Visit {
    var existing := ReadCursor(w.store, me.target, me.reset, me.nowMs, windowMs);
    if existing.Some? && existing.value.completedAtMs.Some? then me.(phase := Over)
    else me.(phase := AtTop, cursor := Opening(existing, me.nowMs))
  }

  function LookResult(w: World, me: Visit): Visit {
    if me.cursor.totalPages > 0 && me.cursor.nextPage > me.cursor.totalPages then
      me.(phase := Writing(me.cursor.(completedAtMs := Some(w.clock))))
    else if me.cursor.nextPage > MAX_PAGES_PER_TARGET then me.(phase := Over)
    else me.(phase := Fetching)
  }

  /** What a step makes of the visit it belongs to. */
  function Moved(w: World, s: Step, me: Visit, windowMs: int): Visit
    requires s.IngestDone? ==> me.phase.Ingesting?
    requires s.CursorStored? ==> me.phase.Writing?
  {
    match s
    case CursorRead(_) => ReadResult(w, me, windowMs)
    case Look(_) => LookResult(w, me)
    case PageComes(_, page) => me.(phase := Ingesting(page))
    case IngestDone(_, ok) => me.(phase := if ok then Writing(Advanced(me.cursor, me.phase.page, w.clock)) else Over)
    case CursorStored(_) =>
      me.(cursor := me.phase.next, phase := if me.phase.next.completedAtMs.Some? then Over else AtTop)
    case _ => me.(phase := Over)
  }

  function Killed(visits: seq<Visit>, process: nat): seq<Visit> {
    if |visits| == 0 then []
    else
      var last := visits[|visits| - 1];
      Killed(visits[..|visits| - 1], process) + [if last.process == process then last.(phase := Over) else last]
  }

  predicate OfVisit(s: Step) { !s.Pass? && !s.Begin? && !s.StoreLoses? && !s.Crash? }

  function StoreAfter(store: Store, s: Step, me: Visit): Store
    requires s.CursorStored? || s.StoreThrows? ==> me.phase.Writing?
  {
    match s
    case CursorStored(_) => store[me.target := me.phase.next]
    case StoreThrows(_, landed) => if landed then store[me.target := me.phase.next] else store
    case _ => store
  }

  function IngestedAfter(w: World, s: Step, me: Visit): set<Ingest>
    requires s.IngestDone? ==> me.phase.Ingesting?
  {
    match s
    case IngestDone(_, ok) => if ok then w.ingested + {Ingest(me.target, me.cursor.nextPage, me.phase.page, w.clock)} else w.ingested
    case _ => w.ingested
  }

  function VisitStep(w: World, s: Step, windowMs: int): World
    requires OfVisit(s) && Enabled(w, s)
  {
    var me := w.visits[s.v];
    var after := Moved(w, s, me, windowMs);
    World(w.clock, StoreAfter(w.store, s, me), IngestedAfter(w, s, me),
          if after.phase == Over then w.held - {(me.process, me.target)} else w.held,
          w.visits[s.v := after])
  }

  function Next(w: World, s: Step, windowMs: int): World
    requires Enabled(w, s)
  {
    match s
    case Pass(ms) => w.(clock := w.clock + ms)
    case Begin(p, t, nowMs, reset) =>
      w.(held := w.held + {(p, t)}, visits := w.visits + [Visit(p, t, nowMs, reset, Reading, Cursor(1, 0, nowMs, None))])
    case StoreLoses(t) => w.(store := w.store - {t})
    case Crash(p) => w.(held := (set h | h in w.held && h.0 != p), visits := Killed(w.visits, p))
    case _ => VisitStep(w, s, windowMs)
  }

  function Empty(clock: int): World { World(clock, map[], {}, {}, []) }

  predicate RunOk(w: World, steps: seq<Step>, windowMs: int)
    decreases |steps|
  {
    |steps| == 0 || (Enabled(w, steps[0]) && RunOk(Next(w, steps[0], windowMs), steps[1..], windowMs))
  }

  function Run(w: World, steps: seq<Step>, windowMs: int): World
    requires RunOk(w, steps, windowMs)
    decreases |steps|
  {
    if |steps| == 0 then w else Run(Next(w, steps[0], windowMs), steps[1..], windowMs)
  }

  // ------------------------------------------------------- mutual exclusion

  function Holds(process: nat, target: Target): Visit -> int {
    (v: Visit) => if v.process == process && v.target == target && v.phase != Over then 1 else 0
  }

  ghost predicate HeldOnce(w: World, process: nat, target: Target) {
    Sum(w.visits, Holds(process, target)) == if (process, target) in w.held then 1 else 0
  }

  lemma {:induction false} KilledHolds(visits: seq<Visit>, process: nat, q: nat, target: Target)
    ensures Sum(Killed(visits, process), Holds(q, target)) == if q == process then 0 else Sum(visits, Holds(q, target))
  {
    if |visits| > 0 {
      var front, last := visits[..|visits| - 1], visits[|visits| - 1];
      KilledHolds(front, process, q, target);
      SumAppend(Killed(front, process), if last.process == process then last.(phase := Over) else last, Holds(q, target));
    }
  }

  lemma MovedStays(w: World, s: Step, windowMs: int)
    requires OfVisit(s) && Enabled(w, s)
    ensures var me, after := w.visits[s.v], Moved(w, s, w.visits[s.v], windowMs);
            after.process == me.process && after.target == me.target && me.phase != Over
  {}

  lemma VisitStepKeepsHeld(w: World, s: Step, windowMs: int, q: nat, t: Target)
    requires OfVisit(s) && Enabled(w, s) && HeldOnce(w, q, t)
    requires HeldOnce(w, w.visits[s.v].process, w.visits[s.v].target)
    ensures HeldOnce(VisitStep(w, s, windowMs), q, t)
  {
    var me := w.visits[s.v];
    var after := Moved(w, s, me, windowMs);
    MovedStays(w, s, windowMs);
    SumUpdate(w.visits, s.v, after, Holds(q, t));
    SumAtLeastMember(w.visits, s.v, Holds(me.process, me.target));
  }

  lemma StepKeepsHeld(w: World, s: Step, windowMs: int, q: nat, t: Target)
    requires Enabled(w, s) && HeldOnce(w, q, t)
    requires OfVisit(s) ==> HeldOnce(w, w.visits[s.v].process, w.visits[s.v].target)
    ensures HeldOnce(Next(w, s, windowMs), q, t)
  {
    match s
    case Pass(_) =>
    case StoreLoses(_) =>
    case Begin(_, _, _, _) => SumAppend(w.visits, Next(w, s, windowMs).visits[|w.visits|], Holds(q, t));
    case Crash(p) => KilledHolds(w.visits, p, q, t);
    case _ => VisitStepKeepsHeld(w, s, windowMs, q, t);
  }

  ghost predicate AllHeldOnce(w: World) { forall q: nat, t :: HeldOnce(w, q, t) }

  lemma {:induction false} RunKeepsHeld(w: World, steps: seq<Step>, windowMs: int)
    requires AllHeldOnce(w) && RunOk(w, steps, windowMs)
    ensures AllHeldOnce(Run(w, steps, windowMs))
    decreases |steps|
  {
    if |steps| > 0 {
      forall q: nat, t
        ensures HeldOnce(Next(w, steps[0], windowMs), q, t)
      {
        StepKeepsHeld(w, steps[0], windowMs, q, t);
      }
      RunKeepsHeld(Next(w, steps[0], windowMs), steps[1..], windowMs);
    }
  }

  /**
    In every run, a process never has two visits of one league-season open, and it holds a
    league-season only while one is: whatever failed or threw, the next run can take it.
  */
  lemma {:induction false} OneVisitPerProcess(clock: int, steps: seq<Step>, windowMs: int, q: nat, t: Target)
    requires RunOk(Empty(clock), steps, windowMs)
    ensures var w := Run(Empty(clock), steps, windowMs);
            Sum(w.visits, Holds(q, t)) <= 1 && ((q, t) in w.held <==> Sum(w.visits, Holds(q, t)) == 1)
  {
    RunKeepsHeld(Empty(clock), steps, windowMs);
    assert HeldOnce(Run(Empty(clock), steps, windowMs), q, t);
  }

  // ------------------------------------------------------ what a cursor means

  ghost predicate Covered(ingested: set<Ingest>, target: Target, page: nat, since: int) {
    exists i :: i in ingested && i.target == target && i.page == page && since <= i.atMs
  }

  /** These pages of a league-season, in order from the first, were ingested since a time. */
  ghost predicate PagesIn(ingested: set<Ingest>, target: Target, since: int, pages: seq<Accepted>) {
    forall j :: 0 <= j < |pages| ==> since <= pages[j].atMs && Ingest(target, j + 1, pages[j].page, pages[j].atMs) in ingested
  }

  /** These pages, in order from the first, were ingested since the cursor's start; each was fit to be taken, and they name its total. */
  ghost predicate LedBy(ingested: set<Ingest>, target: Target, c: Cursor, pages: seq<Accepted>) {
    && |pages| == c.nextPage - 1 && c.totalPages == TotalNamed(0, 1, pages)
    && PagesIn(ingested, target, c.startedAtMs, pages)
    && PagesSound(Cursor(1, 0, c.startedAtMs, None), pages)
  }

  ghost predicate Led(ingested: set<Ingest>, target: Target, c: Cursor) {
    exists pages: seq<Accepted> :: LedBy(ingested, target, c, pages)
  }

  /** Every page below `nextPage` was ingested since the cursor's start, fit to be taken; a completed cursor's total is 0 or behind it. */
  ghost predicate Earned(w: World, target: Target, c: Cursor) {
    && 1 <= c.nextPage <= MAX_PAGES_PER_TARGET + 1
    && Led(w.ingested, target, c)
    && (c.completedAtMs.Some? ==> c.totalPages == 0 || c.totalPages < c.nextPage)
  }

  lemma FreshIsLed(ingested: set<Ingest>, target: Target, nowMs: int)
    ensures Led(ingested, target, Cursor(1, 0, nowMs, None))
  {
    assert LedBy(ingested, target, Cursor(1, 0, nowMs, None), []);
  }

  lemma CompletedIsLed(ingested: set<Ingest>, target: Target, c: Cursor, completedAtMs: Option<int>)
    requires Led(ingested, target, c)
    ensures Led(ingested, target, c.(completedAtMs := completedAtMs))
  {
    var pages: seq<Accepted> :| LedBy(ingested, target, c, pages);
    assert LedBy(ingested, target, c.(completedAtMs := completedAtMs), pages);
  }

  lemma LedCovers(ingested: set<Ingest>, target: Target, c: Cursor, p: nat)
    requires Led(ingested, target, c) && 1 <= p < c.nextPage
    ensures Covered(ingested, target, p, c.startedAtMs)
  {
    var pages: seq<Accepted> :| LedBy(ingested, target, c, pages);
    assert c.startedAtMs <= pages[p - 1].atMs;
    assert Ingest(target, p, pages[p - 1].page, pages[p - 1].atMs) in ingested;
  }

  ghost predicate VisitEarned(w: World, me: Visit) {
    && (me.phase != Over ==> Earned(w, me.target, me.cursor))
    && (me.phase.Writing? ==> Earned(w, me.target, me.phase.next))
    && (me.phase.Ingesting? ==> Fit(me.cursor, me.phase.page))
    && (me.phase.Fetching? || me.phase.Ingesting? ==> me.cursor.nextPage <= MAX_PAGES_PER_TARGET && me.cursor.completedAtMs.None?)
    && (me.phase.AtTop? || me.phase.Reading? ==> me.cursor.completedAtMs.None?)
  }

  ghost predicate AllEarned(w: World) {
    && (forall t :: t in w.store ==> Earned(w, t, w.store[t]))
    && (forall v :: 0 <= v < |w.visits| ==> VisitEarned(w, w.visits[v]))
  }

  /** A page is accepted no earlier than its cursor's start. */
  predicate Timely(w: World, s: Step)
    requires Enabled(w, s)
  {
    s.IngestDone? && s.ok ==> w.visits[s.v].cursor.startedAtMs <= w.clock
  }

  ghost predicate Later(w: World, after: World) { w.clock <= after.clock && w.ingested <= after.ingested }

  lemma EarnedStays(w: World, after: World, target: Target, c: Cursor)
    requires Earned(w, target, c) && Later(w, after)
    ensures Earned(after, target, c)
  {
    var pages: seq<Accepted> :| LedBy(w.ingested, target, c, pages);
    assert LedBy(after.ingested, target, c, pages);
  }

  lemma VisitEarnedStays(w: World, after: World, me: Visit)
    requires VisitEarned(w, me) && Later(w, after)
    ensures VisitEarned(after, me)
  {
    if me.phase != Over {
      EarnedStays(w, after, me.target, me.cursor);
    }
    if me.phase.Writing? {
      EarnedStays(w, after, me.target, me.phase.next);
    }
  }

  lemma PagesInAppend(before: set<Ingest>, after: set<Ingest>, target: Target, since: int, pages: seq<Accepted>, a: Accepted)
    requires PagesIn(before, target, since, pages) && since <= a.atMs && before <= after
    requires Ingest(target, |pages| + 1, a.page, a.atMs) in after
    ensures PagesIn(after, target, since, pages + [a])
  {
    var all := pages + [a];
    forall j | 0 <= j < |all|
      ensures since <= all[j].atMs && Ingest(target, j + 1, all[j].page, all[j].atMs) in after
    {
      if j < |pages| {
        assert all[j] == pages[j];
      }
    }
  }

  lemma TotalAppend(c: Cursor, pages: seq<Accepted>, a: Accepted)
    requires |pages| == c.nextPage - 1 && c.totalPages == TotalNamed(0, 1, pages)
    ensures Advanced(c, a.page, a.atMs).totalPages == TotalNamed(0, 1, pages + [a])
  {
    var all := pages + [a];
    assert all[..|all| - 1] == pages;
  }

  /** One more page behind a cursor. */
  lemma LedGrows(before: set<Ingest>, after: set<Ingest>, target: Target, c: Cursor, pages: seq<Accepted>, a: Accepted)
    requires LedBy(before, target, c, pages) && Fit(c, a.page) && c.startedAtMs <= a.atMs
    requires after == before + {Ingest(target, c.nextPage, a.page, a.atMs)}
    ensures LedBy(after, target, Advanced(c, a.page, a.atMs), pages + [a])
  {
    PagesInAppend(before, after, target, c.startedAtMs, pages, a);
    TotalAppend(c, pages, a);
    SoundAppend(Cursor(1, 0, c.startedAtMs, None), pages, a);
  }

  /** The page just ingested is the one the cursor was waiting for. */
  lemma AdvanceEarned(w: World, after: World, me: Visit, page: Page)
    requires VisitEarned(w, me) && me.phase == Ingesting(page) && me.cursor.startedAtMs <= w.clock
    requires after.clock == w.clock && after.ingested == w.ingested + {Ingest(me.target, me.cursor.nextPage, page, w.clock)}
    ensures Earned(after, me.target, Advanced(me.cursor, page, w.clock))
  {
    var a := Accepted(page, w.clock);
    var pages: seq<Accepted> :| LedBy(w.ingested, me.target, me.cursor, pages);
    LedGrows(w.ingested, after.ingested, me.target, me.cursor, pages, a);
    assert Led(after.ingested, me.target, Advanced(me.cursor, page, w.clock));
  }

  lemma MovedEarned(w: World, s: Step, windowMs: int)
    requires AllEarned(w) && Enabled(w, s) && OfVisit(s) && Timely(w, s)
    ensures VisitEarned(Next(w, s, windowMs), Moved(w, s, w.visits[s.v], windowMs))
  {
    var me, after := w.visits[s.v], Next(w, s, windowMs);
    assert VisitEarned(w, me);
    VisitEarnedStays(w, after, me);
    if s.IngestDone? && s.ok {
      AdvanceEarned(w, after, me, me.phase.page);
    } else if s.CursorRead? {
      var existing := ReadCursor(w.store, me.target, me.reset, me.nowMs, windowMs);
      FreshIsLed(after.ingested, me.target, me.nowMs);
      if existing.Some? {
        EarnedStays(w, after, me.target, existing.value);
      }
    } else if s.Look? {
      CompletedIsLed(after.ingested, me.target, me.cursor, Some(w.clock));
    } else if s.PageComes? {
      FitIs(me.cursor, s.page);
    }
  }

  lemma StepKeepsStoreEarned(w: World, s: Step, windowMs: int, t: Target)
    requires AllEarned(w) && Enabled(w, s) && t in Next(w, s, windowMs).store
    ensures Earned(Next(w, s, windowMs), t, Next(w, s, windowMs).store[t])
  {
    var after := Next(w, s, windowMs);
    if t in w.store && after.store[t] == w.store[t] {
      EarnedStays(w, after, t, w.store[t]);
    } else {
      assert VisitEarned(w, w.visits[s.v]);
      EarnedStays(w, after, t, after.store[t]);
    }
  }

  lemma {:induction false} KilledAt(visits: seq<Visit>, process: nat)
    ensures |Killed(visits, process)| == |visits|
    ensures forall v :: 0 <= v < |visits| ==> Killed(visits, process)[v] in {visits[v], visits[v].(phase := Over)}
  {
    if |visits| > 0 {
      KilledAt(visits[..|visits| - 1], process);
    }
  }

  lemma StepKeepsEarned(w: World, s: Step, windowMs: int)
    requires AllEarned(w) && Enabled(w, s) && Timely(w, s)
    ensures AllEarned(Next(w, s, windowMs))
  {
    var after := Next(w, s, windowMs);
    forall t | t in after.store
      ensures Earned(after, t, after.store[t])
    {
      StepKeepsStoreEarned(w, s, windowMs, t);
    }
    KilledAt(w.visits, if s.Crash? then s.process else 0);
    if s.Begin? {
      FreshIsLed(after.ingested, s.target, s.nowMs);
    }
    forall v | 0 <= v < |after.visits|
      ensures VisitEarned(after, after.visits[v])
    {
      if OfVisit(s) && v == s.v {
        MovedEarned(w, s, windowMs);
      } else if v < |w.visits| {
        VisitEarnedStays(w, after, w.visits[v]);
      }
    }
  }

  predicate AllTimely(w: World, steps: seq<Step>, windowMs: int)
    requires RunOk(w, steps, windowMs)
    decreases |steps|
  {
    |steps| == 0 || (Timely(w, steps[0]) && AllTimely(Next(w, steps[0], windowMs), steps[1..], windowMs))
  }

  lemma {:induction false} RunKeepsEarned(w: World, steps: seq<Step>, windowMs: int)
    requires AllEarned(w) && RunOk(w, steps, windowMs) && AllTimely(w, steps, windowMs)
    ensures AllEarned(Run(w, steps, windowMs))
    decreases |steps|
  {
    if |steps| > 0 {
      StepKeepsEarned(w, steps[0], windowMs);
      RunKeepsEarned(Next(w, steps[0], windowMs), steps[1..], windowMs);
    }
  }

  /**
    A resumable cursor never lies. Over any runs in any processes, stopping, failing or crashing
    anywhere, a stored cursor with `nextPage` = k means that pages 1 to k-1 were each fetched and
    accepted by the ingest client since the cursor's start, none with errors and no rows, none empty
    before the last total named by then; that total is the cursor's, and a completed cursor's is 0 or
    below k. Two processes working on one league-season at once do not break it.
  */
  lemma {:induction false} StoredCursorIsEarned(clock: int, steps: seq<Step>, windowMs: int, t: Target)
    requires RunOk(Empty(clock), steps, windowMs) && AllTimely(Empty(clock), steps, windowMs)
    requires t in Run(Empty(clock), steps, windowMs).store
    ensures var w := Run(Empty(clock), steps, windowMs); var c := w.store[t];
            && Led(w.ingested, t, c)
            && (forall p: nat :: 1 <= p < c.nextPage ==> Covered(w.ingested, t, p, c.startedAtMs))
            && 1 <= c.nextPage <= 251
            && (c.completedAtMs.Some? ==> c.totalPages == 0 || c.totalPages < c.nextPage)
  {
    RunKeepsEarned(Empty(clock), steps, windowMs);
    var w := Run(Empty(clock), steps, windowMs);
    assert Earned(w, t, w.store[t]);
    forall p: nat | 1 <= p < w.store[t].nextPage
      ensures Covered(w.ingested, t, p, w.store[t].startedAtMs)
    {
      LedCovers(w.ingested, t, w.store[t], p);
    }
  }

  /** No page in hand or ingested names errors without rows, or is empty before the total it names. */
  ghost predicate OnlySound(w: World) {
    && (forall i :: i in w.ingested ==> Sound(i.page, i.body.total, i.body))
    && (forall v :: 0 <= v < |w.visits| && w.visits[v].phase.Ingesting? ==> Fit(w.visits[v].cursor, w.visits[v].phase.page))
  }

  lemma StepKeepsOnlySound(w: World, s: Step, windowMs: int)
    requires OnlySound(w) && Enabled(w, s)
    ensures OnlySound(Next(w, s, windowMs))
  {
    KilledAt(w.visits, if s.Crash? then s.process else 0);
    if s.PageComes? {
      FitIs(w.visits[s.v].cursor, s.page);
    }
  }

  lemma {:induction false} RunKeepsOnlySound(w: World, steps: seq<Step>, windowMs: int)
    requires OnlySound(w) && RunOk(w, steps, windowMs)
    ensures OnlySound(Run(w, steps, windowMs))
    decreases |steps|
  {
    if |steps| > 0 {
      StepKeepsOnlySound(w, steps[0], windowMs);
      RunKeepsOnlySound(Next(w, steps[0], windowMs), steps[1..], windowMs);
    }
  }

  /**
    Over any runs, timely or not, no page with errors and no rows, or empty before the total it names,
    is ever ingested; and a page a visit has fetched goes on to be ingested exactly if it is neither,
    by its own total or, for a later page that names none, the cursor's.
  */
  lemma {:induction false} OnlySoundPagesAreIngested(clock: int, steps: seq<Step>, windowMs: int, v: nat, page: Page)
    requires RunOk(Empty(clock), steps, windowMs)
    ensures var w := Run(Empty(clock), steps, windowMs);
            && (forall i :: i in w.ingested ==> (i.body.errors ==> 0 < i.body.rows) && (i.page < i.body.total ==> 0 < i.body.entries))
            && (Enabled(w, PageComes(v, page)) <==> v < |w.visits| && w.visits[v].phase == Fetching && Fit(w.visits[v].cursor, page))
  {
    RunKeepsOnlySound(Empty(clock), steps, windowMs);
    var w := Run(Empty(clock), steps, windowMs);
    if v < |w.visits| {
      FitIs(w.visits[v].cursor, page);
    }
  }

  // ------------------------------------------------ how a visit moves on

  /** A visit resumes at the stored cursor unless a reset or its age forbids; a completed one ends it, and lets go of the league-season. */
  lemma ReadLeads(w: World, v: nat, windowMs: int)
    requires Enabled(w, CursorRead(v))
    ensures var me, after := w.visits[v], Next(w, CursorRead(v), windowMs);
            var start := StartsAt(w.store, me.target, Job({}, me.reset, me.nowMs, windowMs, 0));
            && after.visits == w.visits[v := if start.completedAtMs.Some? then me.(phase := Over) else me.(phase := AtTop, cursor := start)]
            && after.held == (if start.completedAtMs.Some? then w.held - {(me.process, me.target)} else w.held)
            && after.store == w.store && after.ingested == w.ingested
  {
    var me := w.visits[v];
    StartsAtIs(w.store, me.target, Job({}, me.reset, me.nowMs, windowMs, 0));
  }

  /** The top of the loop: a cursor past its total is completed, one past page 250 ends the visit, and any other fetches its page. */
  lemma LookLeads(w: World, v: nat, windowMs: int)
    requires Enabled(w, Look(v))
    ensures var me := w.visits[v]; var c, phase := me.cursor, Next(w, Look(v), windowMs).visits[v].phase;
            && (phase == Writing(c.(completedAtMs := Some(w.clock))) <==> AlreadyDone(c))
            && (phase == Over <==> !AlreadyDone(c) && 250 < c.nextPage)
            && (phase == Fetching <==> !AlreadyDone(c) && c.nextPage <= 250)
            && Enabled(w, Leave(v))
  {}

  /**
    A fit page that the ingest client takes goes through: its rows count as ingested, the cursor after
    it is stored, and the visit looks for the next page, or is over if that completed the league-season.
  */
  lemma {:induction false} FitPageGoesThrough(w: World, v: nat, page: Page, windowMs: int)
    requires v < |w.visits| && w.visits[v].phase == Fetching && Fit(w.visits[v].cursor, page)
    ensures var me := w.visits[v]; var next := Through(me.cursor, [Accepted(page, w.clock)]);
            var steps := [PageComes(v, page), IngestDone(v, true), CursorStored(v)];
            && RunOk(w, steps, windowMs)
            && Run(w, steps, windowMs).store == w.store[me.target := next]
            && Run(w, steps, windowMs).ingested == w.ingested + {Ingest(me.target, me.cursor.nextPage, page, w.clock)}
            && Run(w, steps, windowMs).visits == w.visits[v := me.(cursor := next, phase := if next.completedAtMs.Some? then Over else AtTop)]
            && Enabled(w, Leave(v))
  {
    var me := w.visits[v];
    FitIs(me.cursor, page);
    var a := Accepted(page, w.clock);
    assert [a][..0] == [];
    assert Through(me.cursor, [a]) == Advanced(me.cursor, page, w.clock);
    var w1 := Next(w, PageComes(v, page), windowMs);
    var w2 := Next(w1, IngestDone(v, true), windowMs);
    var w3 := Next(w2, CursorStored(v), windowMs);
    var end := me.(cursor := Advanced(me.cursor, page, w.clock), phase := w3.visits[v].phase);
    assert w3.visits == w.visits[v := end];
    Prepend(w2, CursorStored(v), [], windowMs);
    Prepend(w1, IngestDone(v, true), [CursorStored(v)], windowMs);
    Prepend(w, PageComes(v, page), [IngestDone(v, true), CursorStored(v)], windowMs);
    assert [CursorStored(v)] + [] == [CursorStored(v)];
    assert [IngestDone(v, true)] + [CursorStored(v)] == [IngestDone(v, true), CursorStored(v)];
    assert [PageComes(v, page)] + [IngestDone(v, true), CursorStored(v)] == [PageComes(v, page), IngestDone(v, true), CursorStored(v)];
  }

  /** A page the ingest client refuses counts for nothing and ends the visit. */
  lemma RefusedPageEnds(w: World, v: nat, windowMs: int)
    requires Enabled(w, IngestDone(v, false))
    ensures var after := Next(w, IngestDone(v, false), windowMs);
            && after.store == w.store && after.ingested == w.ingested
            && after.visits == w.visits[v := w.visits[v].(phase := Over)]
  {}

  /** A cursor write that throws ends the visit too, with the cursor in the store if it landed, and as it was if not. */
  lemma ThrownWriteEnds(w: World, v: nat, landed: bool, windowMs: int)
    requires Enabled(w, StoreThrows(v, landed))
    ensures var me, after := w.visits[v], Next(w, StoreThrows(v, landed), windowMs);
            && after.store.Keys == w.store.Keys + (if landed then {me.target} else {})
            && (landed ==> after.store[me.target] == me.phase.next)
            && (forall t :: t in w.store && !(landed && t == me.target) ==> after.store[t] == w.store[t])
            && after.visits == w.visits[v := me.(phase := Over)]
  {}

  // --------------------------------------------------- exactly when it holds

  /** Nothing was ingested in the future. */
  ghost predicate NoFuture(w: World) { forall i :: i in w.ingested ==> i.atMs <= w.clock }

  lemma StepKeepsNoFuture(w: World, s: Step, windowMs: int)
    requires NoFuture(w) && Enabled(w, s)
    ensures NoFuture(Next(w, s, windowMs))
  {}

  /**
    An accepted page counts as ingested since its cursor's start exactly if that start has come:
    whatever else was ever ingested, a start in the future is after all of it.
  */
  lemma IngestCountsIffStarted(w: World, s: Step, windowMs: int)
    requires NoFuture(w) && Enabled(w, s) && s.IngestDone? && s.ok
    ensures var c, after := w.visits[s.v].cursor, Next(w, s, windowMs);
            Covered(after.ingested, w.visits[s.v].target, c.nextPage, c.startedAtMs) <==> c.startedAtMs <= w.clock
  {
    var me, after := w.visits[s.v], Next(w, s, windowMs);
    assert Ingest(me.target, me.cursor.nextPage, me.phase.page, w.clock) in after.ingested;
  }

  /** At every moment of the run every cursor, stored or about to be, means what it says. */
  ghost predicate EarnedThroughout(w: World, steps: seq<Step>, windowMs: int)
    requires RunOk(w, steps, windowMs)
    decreases |steps|
  {
    AllEarned(w) && (|steps| > 0 ==> EarnedThroughout(Next(w, steps[0], windowMs), steps[1..], windowMs))
  }

  lemma UntimelyIsUnearned(w: World, s: Step, windowMs: int)
    requires AllEarned(w) && NoFuture(w) && Enabled(w, s) && !Timely(w, s)
    ensures !AllEarned(Next(w, s, windowMs))
  {
    var me, after := w.visits[s.v], Next(w, s, windowMs);
    IngestCountsIffStarted(w, s, windowMs);
    assert VisitEarned(w, me);
    var next := Advanced(me.cursor, me.phase.page, w.clock);
    assert after.visits[s.v].phase == Writing(next);
    assert !Covered(after.ingested, me.target, me.cursor.nextPage, next.startedAtMs);
    if Led(after.ingested, me.target, next) {
      LedCovers(after.ingested, me.target, next, me.cursor.nextPage);
    }
    assert !VisitEarned(after, after.visits[s.v]);
  }

  lemma {:induction false} ThroughoutIffTimely(w: World, steps: seq<Step>, windowMs: int)
    requires AllEarned(w) && NoFuture(w) && RunOk(w, steps, windowMs)
    ensures EarnedThroughout(w, steps, windowMs) <==> AllTimely(w, steps, windowMs)
    decreases |steps|
  {
    if |steps| > 0 {
      var after := Next(w, steps[0], windowMs);
      StepKeepsNoFuture(w, steps[0], windowMs);
      if Timely(w, steps[0]) {
        StepKeepsEarned(w, steps[0], windowMs);
        ThroughoutIffTimely(after, steps[1..], windowMs);
      } else {
        UntimelyIsUnearned(w, steps[0], windowMs);
      }
    }
  }

  /**
    Exactly when cursors can be trusted: over any run, every cursor means what it says at every
    moment if and only if no page is accepted before the start its cursor records.
  */
  lemma {:induction false} EarnedIffTimely(clock: int, steps: seq<Step>, windowMs: int)
    requires RunOk(Empty(clock), steps, windowMs)
    ensures EarnedThroughout(Empty(clock), steps, windowMs) <==> AllTimely(Empty(clock), steps, windowMs)
  {
    ThroughoutIffTimely(Empty(clock), steps, windowMs);
  }

  /** A run's start is not in its future, as when the request names none. */
  predicate Honest(w: World, s: Step) { s.Begin? ==> s.nowMs <= w.clock }

  predicate AllHonest(w: World, steps: seq<Step>, windowMs: int)
    requires RunOk(w, steps, windowMs)
    decreases |steps|
  {
    |steps| == 0 || (Honest(w, steps[0]) && AllHonest(Next(w, steps[0], windowMs), steps[1..], windowMs))
  }

  ghost predicate VisitStarted(w: World, me: Visit) {
    && me.nowMs <= w.clock && me.cursor.startedAtMs <= w.clock
    && (me.phase.Writing? ==> me.phase.next.startedAtMs <= w.clock)
  }

  ghost predicate AllStarted(w: World) {
    && (forall t :: t in w.store ==> w.store[t].startedAtMs <= w.clock)
    && (forall v :: 0 <= v < |w.visits| ==> VisitStarted(w, w.visits[v]))
  }

  lemma StepKeepsStarted(w: World, s: Step, windowMs: int)
    requires AllStarted(w) && Enabled(w, s) && Honest(w, s)
    ensures AllStarted(Next(w, s, windowMs))
  {
    var after := Next(w, s, windowMs);
    KilledAt(w.visits, if s.Crash? then s.process else 0);
    assert OfVisit(s) ==> VisitStarted(w, w.visits[s.v]);
    forall v | 0 <= v < |after.visits|
      ensures VisitStarted(after, after.visits[v])
    {
      assert v < |w.visits| ==> VisitStarted(w, w.visits[v]);
    }
  }

  /** Runs that start now, or in the past, accept every page in time. */
  lemma {:induction false} HonestRunsAreTimely(w: World, steps: seq<Step>, windowMs: int)
    requires AllStarted(w) && RunOk(w, steps, windowMs) && AllHonest(w, steps, windowMs)
    ensures AllTimely(w, steps, windowMs)
    decreases |steps|
  {
    if |steps| > 0 {
      assert OfVisit(steps[0]) ==> VisitStarted(w, w.visits[steps[0].v]);
      StepKeepsStarted(w, steps[0], windowMs);
      HonestRunsAreTimely(Next(w, steps[0], windowMs), steps[1..], windowMs);
    }
  }

  /** So from an empty store, cursors mean what they say at every moment of such runs. */
  lemma {:induction false} HonestRunsEarn(clock: int, steps: seq<Step>, windowMs: int)
    requires RunOk(Empty(clock), steps, windowMs) && AllHonest(Empty(clock), steps, windowMs)
    ensures AllTimely(Empty(clock), steps, windowMs) && EarnedThroughout(Empty(clock), steps, windowMs)
  {
    HonestRunsAreTimely(Empty(clock), steps, windowMs);
    EarnedIffTimely(clock, steps, windowMs);
  }

  /** The world of a first visit whose run says it starts at 1, while the clock is at 0. */
  function FutureVisit(t: Target, phase: Phase, cursor: Cursor): World {
    World(0, map[], {}, {(0, t)}, [Visit(0, t, 1, false, phase, cursor)])
  }

  lemma FutureVisitStores(t: Target)
    ensures var w, steps := FutureVisit(t, Ingesting(Page(2, 1, 1, false)), Cursor(1, 0, 1, None)), [IngestDone(0, true), CursorStored(0)];
            RunOk(w, steps, 0) && Run(w, steps, 0).store == map[t := Cursor(2, 2, 1, None)] && Run(w, steps, 0).ingested == {Ingest(t, 1, Page(2, 1, 1, false), 0)}
  {
    var page, c := Page(2, 1, 1, false), Cursor(1, 0, 1, None);
    var w := FutureVisit(t, Ingesting(page), c);
    var after := Next(w, IngestDone(0, true), 0);
    assert after.visits[0].phase == Writing(Cursor(2, 2, 1, None));
    Prepend(after, CursorStored(0), [], 0);
    Prepend(w, IngestDone(0, true), [CursorStored(0)], 0);
    assert [CursorStored(0)] + [] == [CursorStored(0)];
    assert [IngestDone(0, true)] + [CursorStored(0)] == [IngestDone(0, true), CursorStored(0)];
  }

  lemma {:induction false} FutureVisitOpens(t: Target, rest: seq<Step>)
    requires RunOk(FutureVisit(t, Fetching, Cursor(1, 0, 1, None)), rest, 0)
    ensures var steps := [Begin(0, t, 1, false)] + ([CursorRead(0)] + ([Look(0)] + rest));
            RunOk(Empty(0), steps, 0) && Run(Empty(0), steps, 0) == Run(FutureVisit(t, Fetching, Cursor(1, 0, 1, None)), rest, 0)
  {
    var c := Cursor(1, 0, 1, None);
    assert Next(FutureVisit(t, AtTop, c), Look(0), 0) == FutureVisit(t, Fetching, c);
    Prepend(FutureVisit(t, AtTop, c), Look(0), rest, 0);
    assert Next(FutureVisit(t, Reading, c), CursorRead(0), 0) == FutureVisit(t, AtTop, c);
    Prepend(FutureVisit(t, Reading, c), CursorRead(0), [Look(0)] + rest, 0);
    assert Next(Empty(0), Begin(0, t, 1, false), 0) == FutureVisit(t, Reading, c);
    Prepend(Empty(0), Begin(0, t, 1, false), [CursorRead(0)] + ([Look(0)] + rest), 0);
  }

  ghost predicate Overstated(w: World, t: Target) {
    t in w.store && w.store[t].nextPage == 2 && !Covered(w.ingested, t, 1, w.store[t].startedAtMs)
  }

  /** The witness: a request may name a start in the future; then the pages are there, but not since that start. */
  lemma AFutureStartOverstates(t: Target)
    ensures exists steps :: RunOk(Empty(0), steps, 0) && Overstated(Run(Empty(0), steps, 0), t)
  {
    var page, c := Page(2, 1, 1, false), Cursor(1, 0, 1, None);
    var last := [IngestDone(0, true), CursorStored(0)];
    FutureVisitStores(t);
    assert Next(FutureVisit(t, Fetching, c), PageComes(0, page), 0) == FutureVisit(t, Ingesting(page), c);
    Prepend(FutureVisit(t, Fetching, c), PageComes(0, page), last, 0);
    FutureVisitOpens(t, [PageComes(0, page)] + last);
    assert Overstated(Run(FutureVisit(t, Ingesting(page), c), last, 0), t);
  }

  lemma {:induction false} Prepend(w: World, s: Step, rest: seq<Step>, windowMs: int)
    requires Enabled(w, s) && RunOk(Next(w, s, windowMs), rest, windowMs)
    ensures RunOk(w, [s] + rest, windowMs) && Run(w, [s] + rest, windowMs) == Run(Next(w, s, windowMs), rest, windowMs)
  {
    assert ([s] + rest)[1..] == rest;
  }
}
