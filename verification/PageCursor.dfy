/**
  The resumable page loop of the player-season-stats enrichment job
  (src/workflows/provider-enrichment.ts): pages of a league-season are fetched in order under a
  call limit, each is ingested, and a small cursor is stored after each accepted page.
*/
module PageCursor {
  import opened Common

  const MAX_PAGES_PER_TARGET: nat := 250
  const RATE_LIMITED_ATTEMPTS: nat := 3
  const FAILURE_CIRCUIT_THRESHOLD: nat := 3

  datatype Cursor = Cursor(nextPage: nat, totalPages: nat, startedAtMs: int, completedAtMs: Option<int>)

  /** A decoded page: the total it reports, its entries, the rows decoded from them, and whether it names errors. */
  datatype Page = Page(total: nat, entries: nat, rows: nat, errors: bool)

  datatype Posture = Continue | CachedOnly | Abort

  datatype Kind =
    | RateLimited
    | Denied(posture: Posture)
    | NotFetched
    | Fetched(page: Page, ingested: bool, after: Posture)

  /**
    What one attempt meets. `token`: the job's own limiter let it through. `counted`: the
    request reached the provider. `atMs`: the clock when the page was done.
  */
  datatype Reply = Reply(token: bool, counted: bool, kind: Kind, atMs: int)

  datatype Stop = Incomplete | Aborted

  datatype Status = Partial | Complete | Failed | NotStarted | Fresh | InProgress

  /** The run's own counters; `attempts` numbers the replies met so far. */
  datatype Progress = Progress(callsUsed: nat, failures: nat, attempts: nat, stop: Option<Stop>)

  // ------------------------------------------------------------- one page

  /** A later page without a total keeps the one before it. */
  function TotalAfter(c: Cursor, page: Page): nat {
    if c.nextPage > 1 && page.total == 0 then c.totalPages else page.total
  }

  predicate Faulty(c: Cursor, page: Page) {
    || (page.errors && page.rows == 0)
    || (page.entries == 0 && c.nextPage < TotalAfter(c, page))
  }

  function Advanced(c: Cursor, page: Page, atMs: int): Cursor {
    var total := TotalAfter(c, page);
    var moved := c.(nextPage := c.nextPage + 1, totalPages := total);
    if total == 0 || c.nextPage >= total then moved.(completedAtMs := Some(atMs)) else moved
  }

  datatype Accepted = Accepted(page: Page, atMs: int)

  /** The cursor after a series of accepted pages. */
  function Through(start: Cursor, pages: seq<Accepted>): Cursor {
    if |pages| == 0 then start
    else
      var last := pages[|pages| - 1];
      Advanced(Through(start, pages[..|pages| - 1]), last.page, last.atMs)
  }

  /** The total a series of accepted pages leaves: the last one named, if any is after page 1. */
  function TotalNamed(start: nat, first: nat, pages: seq<Accepted>): nat {
    if |pages| == 0 then start
    else
      var n := |pages| - 1;
      if pages[n].page.total > 0 || first + n <= 1 then pages[n].page.total else TotalNamed(start, first, pages[..n])
  }

  /** The cursor counts pages one by one, keeps its start, and holds the last total named. */
  lemma {:induction false} ThroughIs(start: Cursor, pages: seq<Accepted>)
    ensures var c := Through(start, pages);
            && c.nextPage == start.nextPage + |pages|
            && c.startedAtMs == start.startedAtMs
            && c.totalPages == TotalNamed(start.totalPages, start.nextPage, pages)
            && (0 < |pages| && (c.totalPages == 0 || c.totalPages < c.nextPage) ==> c.completedAtMs == Some(pages[|pages| - 1].atMs))
  {
    if |pages| > 0 {
      ThroughIs(start, pages[..|pages| - 1]);
    }
  }

  /** Every proper prefix leaves the cursor open. */
  ghost predicate OpenUntilLast(start: Cursor, pages: seq<Accepted>) {
    forall i :: 0 <= i < |pages| ==> Through(start, pages[..i]).completedAtMs.None?
  }

  /** A series completes the league-season exactly when the last total named is 0 or has been reached. */
  lemma {:induction false} CompleteIffTotalReached(start: Cursor, pages: seq<Accepted>)
    requires 0 < |pages| && OpenUntilLast(start, pages)
    ensures var total := TotalNamed(start.totalPages, start.nextPage, pages);
            Through(start, pages).completedAtMs.Some? <==> total == 0 || total < start.nextPage + |pages|
  {
    var front := pages[..|pages| - 1];
    assert Through(start, front).completedAtMs.None?;
    ThroughIs(start, pages);
    ThroughIs(start, front);
  }

  // -------------------------------------------------------------- the loop

  /** Provider calls among the attempts numbered from `from` below `end`. */
  function CallsIn(world: nat -> Reply, from: nat, end: nat): nat
    requires from <= end
    decreases end
  {
    if from == end then 0 else CallsIn(world, from, end - 1) + (if world(end - 1).token && world(end - 1).counted then 1 else 0)
  }

  lemma {:induction false} CallsAdd(world: nat -> Reply, from: nat, mid: nat, end: nat)
    requires from <= mid <= end
    ensures CallsIn(world, from, end) == CallsIn(world, from, mid) + CallsIn(world, mid, end)
    decreases end
  {
    if mid < end {
      CallsAdd(world, from, mid, end - 1);
    }
  }

  datatype Got = Got(after: Progress, result: Option<Reply>)

  /** A page's attempts, `left` of them at most. `None`: the job's limiter stayed full. */
  function Attempts(limit: nat, run: Progress, world: nat -> Reply, left: nat): Got
    decreases left, run.attempts
  {
    var reply := world(run.attempts);
    var tried := run.(attempts := run.attempts + 1);
    if !reply.token then Got(tried.(stop := Some(Incomplete)), None)
    else
      var after := if reply.counted then tried.(callsUsed := tried.callsUsed + 1) else tried;
      if !reply.kind.RateLimited? || after.callsUsed >= limit || left <= 1 then Got(after, Some(reply))
      else Attempts(limit, after, world, left - 1)
  }

  /**
    At most `left` attempts, all but the last refused, and the last only at the call limit or for want of
    attempts; none past the call limit; each counted if it reached the provider.
  */
  ghost predicate AttemptsOk(limit: nat, run: Progress, world: nat -> Reply, left: nat, got: Got) {
    var after := got.after;
    && after.callsUsed <= limit && after.failures == run.failures
    && run.attempts < after.attempts <= run.attempts + left
    && after.callsUsed == run.callsUsed + CallsIn(world, run.attempts, after.attempts)
    && (forall k :: run.attempts <= k < after.attempts - 1 ==> world(k).token && world(k).kind.RateLimited?)
    && (var last := world(after.attempts - 1);
        && got.result == (if last.token then Some(last) else None) && after.stop == (if last.token then None else Some(Incomplete))
        && (last.token && last.kind.RateLimited? ==> after.callsUsed == limit || after.attempts == run.attempts + left))
  }

  lemma OneRefused(limit: nat, run: Progress, world: nat -> Reply, left: nat, after: Progress, got: Got)
    requires world(run.attempts).token && world(run.attempts).kind.RateLimited?
    requires after.attempts == run.attempts + 1 && after.failures == run.failures
    requires after.callsUsed == run.callsUsed + CallsIn(world, run.attempts, after.attempts)
    requires AttemptsOk(limit, after, world, left, got)
    ensures AttemptsOk(limit, run, world, left + 1, got)
  {
    CallsAdd(world, run.attempts, after.attempts, got.after.attempts);
  }

  lemma {:induction false} AttemptsAre(limit: nat, run: Progress, world: nat -> Reply, left: nat)
    requires run.stop.None? && run.callsUsed < limit && 0 < left
    ensures AttemptsOk(limit, run, world, left, Attempts(limit, run, world, left))
    decreases left
  {
    var reply := world(run.attempts);
    var tried := run.(attempts := run.attempts + 1);
    var after := if reply.counted then tried.(callsUsed := tried.callsUsed + 1) else tried;
    assert CallsIn(world, run.attempts, run.attempts + 1) == CallsIn(world, run.attempts, run.attempts) + (if reply.token && reply.counted then 1 else 0);
    if reply.token && reply.kind.RateLimited? && after.callsUsed < limit && 1 < left {
      AttemptsAre(limit, after, world, left - 1);
      OneRefused(limit, run, world, left - 1, after, Attempts(limit, after, world, left - 1));
    }
  }

  /** One page, tried again while the minute limiter or the provider refuses, up to three times and never past the call limit. */
  method AttemptPage(limit: nat, run: Progress, world: nat -> Reply) returns (after: Progress, result: Option<Reply>)
    requires run.stop.None? && run.callsUsed < limit
    ensures Got(after, result) == Attempts(limit, run, world, RATE_LIMITED_ATTEMPTS)
  {
    after, result := run, None;
    var attempt := 1;
    while attempt <= RATE_LIMITED_ATTEMPTS
      invariant 1 <= attempt <= RATE_LIMITED_ATTEMPTS
      invariant Attempts(limit, run, world, RATE_LIMITED_ATTEMPTS) == Attempts(limit, after, world, RATE_LIMITED_ATTEMPTS - attempt + 1)
      decreases RATE_LIMITED_ATTEMPTS - attempt
    {
      var reply := world(after.attempts);
      after := after.(attempts := after.attempts + 1);
      if !reply.token {
        after := after.(stop := Some(Incomplete));
        return after, None;
      }
      if reply.counted {
        after := after.(callsUsed := after.callsUsed + 1);
      }
      if !reply.kind.RateLimited? || after.callsUsed >= limit || attempt == RATE_LIMITED_ATTEMPTS {
        return after, Some(reply);
      }
      attempt := attempt + 1;
    }
  }

  /** One more failed page; the third in a row ends the run. */
  function FailedOnce(run: Progress): Progress {
    run.(failures := run.failures + 1,
         stop := if run.failures + 1 >= FAILURE_CIRCUIT_THRESHOLD then Some(Aborted) else run.stop)
  }

  function StopFor(posture: Posture): Option<Stop> {
    match posture
    case Continue => None
    case CachedOnly => Some(Incomplete)
    case Abort => Some(Aborted)
  }

  datatype Turn = Stopped | PageFailed | PageAccepted(page: Page, atMs: int, posture: Posture)

  /** What the attempts at a page come to. */
  function TurnOf(cursor: Cursor, got: Got): (Progress, Turn) {
    if got.result.None? then (got.after, Stopped)
    else
      match got.result.value.kind
      case RateLimited => (got.after.(stop := Some(Incomplete)), Stopped)
      case Denied(posture) => (got.after.(stop := Some(if posture == Abort then Aborted else Incomplete)), Stopped)
      case NotFetched => (FailedOnce(got.after), PageFailed)
      case Fetched(page, ingested, posture) =>
        if Faulty(cursor, page) || !ingested then (FailedOnce(got.after), PageFailed)
        else (got.after.(failures := 0), PageAccepted(page, got.result.value.atMs, posture))
  }

  function Taken(cursor: Cursor, limit: nat, run: Progress, world: nat -> Reply): (Progress, Turn) {
    TurnOf(cursor, Attempts(limit, run, world, RATE_LIMITED_ATTEMPTS))
  }

  /** Page `number` may be taken, given the last total named: it names no errors without rows, and is not empty before the end. */
  predicate Sound(number: nat, total: nat, page: Page) {
    && (page.errors ==> 0 < page.rows)
    && (page.entries == 0 ==> total <= number)
  }

  /** The page after a cursor may be taken; the total is its own, or the cursor's if a later page names none. */
  predicate Fit(cursor: Cursor, page: Page) {
    Sound(cursor.nextPage, if 0 < page.total || cursor.nextPage <= 1 then page.total else cursor.totalPages, page)
  }

  predicate Acceptable(cursor: Cursor, reply: Reply) {
    reply.token && reply.kind.Fetched? && reply.kind.ingested && Fit(cursor, reply.kind.page)
  }

  /**
    A page is accepted exactly when the last attempt fetched one that was ingested, names no errors
    without rows, and is not empty before the last total named; it fails, counting one more failure in
    a row, exactly when that attempt was let through but fetched nothing, or a page it did not accept;
    else the run stops.
  */
  lemma TakenIs(cursor: Cursor, limit: nat, run: Progress, world: nat -> Reply)
    requires run.stop.None? && run.callsUsed < limit
    ensures var (after, turn) := Taken(cursor, limit, run, world);
            && run.attempts < after.attempts <= run.attempts + 3
            && after.callsUsed == run.callsUsed + CallsIn(world, run.attempts, after.attempts) <= limit
            && (var last := world(after.attempts - 1);
                && (turn.PageAccepted? <==> Acceptable(cursor, last))
                && (turn.PageAccepted? ==> last.kind == Fetched(turn.page, true, turn.posture) && turn.atMs == last.atMs)
                && (last.token && last.kind.RateLimited? ==> after.callsUsed == limit || after.attempts == run.attempts + 3)
                && (turn.PageFailed? <==> last.token && (last.kind.NotFetched? || (last.kind.Fetched? && !Acceptable(cursor, last)))))
            && (turn.Stopped? ==> after.stop.Some? && after.failures == run.failures)
            && (turn.PageFailed? ==> after.failures == run.failures + 1 && after.stop == (if after.failures >= 3 then Some(Aborted) else None))
            && (turn.PageAccepted? ==> after.stop.None? && after.failures == 0)
  {
    AttemptsAre(limit, run, world, RATE_LIMITED_ATTEMPTS);
  }

  /** One page under the call limit: fetched with its retries, checked, and ingested. */
  method TakePage(cursor: Cursor, limit: nat, run: Progress, world: nat -> Reply) returns (after: Progress, turn: Turn)
    requires run.stop.None? && run.callsUsed < limit
    ensures (after, turn) == Taken(cursor, limit, run, world)
    ensures run.attempts < after.attempts
    ensures turn.PageAccepted? <==> Acceptable(cursor, world(after.attempts - 1))
    ensures turn.PageFailed? <==>
              world(after.attempts - 1).token && !Acceptable(cursor, world(after.attempts - 1))
              && (world(after.attempts - 1).kind.NotFetched? || world(after.attempts - 1).kind.Fetched?)
  {
    TakenIs(cursor, limit, run, world);
    var result;
    after, result := AttemptPage(limit, run, world);
    if result.None? {
      return after, Stopped;
    }
    match result.value.kind {
      case RateLimited =>
        after := after.(stop := Some(Incomplete));
        return after, Stopped;
      case Denied(posture) =>
        after := after.(stop := Some(if posture == Abort then Aborted else Incomplete));
        return after, Stopped;
      case NotFetched =>
        return FailedOnce(after), PageFailed;
      case Fetched(page, ingested, posture) =>
        if Faulty(cursor, page) || !ingested {
          return FailedOnce(after), PageFailed;
        }
        after := after.(failures := 0);
        return after, PageAccepted(page, result.value.atMs, posture);
    }
  }

  /** A visit's end: the cursor, the cursors stored on the way, the pages accepted, and how it ended. */
  datatype Loop = Loop(cursor: Cursor, writes: seq<Cursor>, pages: seq<Accepted>, after: Progress, status: Status)

  function Before(cursor: Cursor, page: Accepted, rest: Loop): Loop {
    rest.(writes := [cursor] + rest.writes, pages := [page] + rest.pages)
  }

  /** The page loop of one open league-season. */
  function PageLoop(c: Cursor, limit: nat, run: Progress, world: nat -> Reply): Loop
    decreases MAX_PAGES_PER_TARGET + 1 - c.nextPage
  {
    if c.totalPages > 0 && c.nextPage > c.totalPages then
      var done := c.(completedAtMs := Some(world(run.attempts).atMs));
      Loop(done, [done], [], run, Complete)
    else if c.nextPage > MAX_PAGES_PER_TARGET then Loop(c, [], [], run, Failed)
    else if run.callsUsed >= limit then Loop(c, [], [], run.(stop := Some(Incomplete)), Partial)
    else
      var (after, turn) := Taken(c, limit, run, world);
      match turn
      case Stopped => Loop(c, [], [], after, Partial)
      case PageFailed => Loop(c, [], [], after, Failed)
      case PageAccepted(page, atMs, posture) =>
        var next := Advanced(c, page, atMs);
        var accepted := Accepted(page, atMs);
        if next.completedAtMs.Some? then Loop(next, [next], [accepted], after, Complete)
        else if posture != Continue then Loop(next, [next], [accepted], after.(stop := StopFor(posture)), Partial)
        else Before(next, accepted, PageLoop(next, limit, after, world))
  }

  /** A visit that stopped before it fetched anything is reported as not started. */
  function Reported(l: Loop): Status {
    if l.status == Partial && l.after.stop.Some? && l.pages == [] then NotStarted else l.status
  }

  function Prepended(writes: seq<Cursor>, pages: seq<Accepted>, rest: Loop): Loop {
    rest.(writes := writes + rest.writes, pages := pages + rest.pages)
  }

  ghost predicate LoopSoFar(start: Cursor, limit: nat, run: Progress, world: nat -> Reply,
                            writes: seq<Cursor>, pages: seq<Accepted>, cursor: Cursor, after: Progress)
  {
    PageLoop(start, limit, run, world) == Prepended(writes, pages, PageLoop(cursor, limit, after, world))
  }

  lemma LoopBegins(start: Cursor, limit: nat, run: Progress, world: nat -> Reply)
    ensures LoopSoFar(start, limit, run, world, [], [], start, run)
  {
    var l := PageLoop(start, limit, run, world);
    assert [] + l.writes == l.writes && [] + l.pages == l.pages;
  }

  lemma {:induction false} LoopFurther(start: Cursor, limit: nat, run: Progress, world: nat -> Reply, writes: seq<Cursor>, pages: seq<Accepted>,
                    cursor: Cursor, after: Progress, next: Cursor, page: Accepted, later: Progress)
    requires LoopSoFar(start, limit, run, world, writes, pages, cursor, after)
    requires PageLoop(cursor, limit, after, world) == Before(next, page, PageLoop(next, limit, later, world))
    ensures LoopSoFar(start, limit, run, world, writes + [next], pages + [page], next, later)
  {
    var rest := PageLoop(next, limit, later, world);
    assert writes + ([next] + rest.writes) == (writes + [next]) + rest.writes;
    assert pages + ([page] + rest.pages) == (pages + [page]) + rest.pages;
  }

  lemma {:induction false} LoopEnds(start: Cursor, limit: nat, run: Progress, world: nat -> Reply, writes: seq<Cursor>, pages: seq<Accepted>,
                 cursor: Cursor, after: Progress, last: Loop)
    requires LoopSoFar(start, limit, run, world, writes, pages, cursor, after) && PageLoop(cursor, limit, after, world) == last
    ensures PageLoop(start, limit, run, world) == Prepended(writes, pages, last)
    ensures last.writes == [] && last.pages == [] ==> PageLoop(start, limit, run, world) == last.(writes := writes, pages := pages)
  {
    assert writes + [] == writes && pages + [] == pages;
  }

  /** The page loop of the code. */
  method FetchTarget(start: Cursor, limit: nat, run: Progress, world: nat -> Reply) returns (l: Loop)
    requires run.stop.None? && start.completedAtMs.None?
    ensures l == PageLoop(start, limit, run, world)
    ensures PagesSound(start, l.pages) && AllIngested(world, run.attempts, l.after.attempts, l.pages)
  {
    AcceptedPagesAreSound(start, limit, run, world);
    var cursor, writes, pages, after := start, [], [], run;
    LoopBegins(start, limit, run, world);
    while true
      invariant after.stop.None? && cursor.completedAtMs.None?
      invariant LoopSoFar(start, limit, run, world, writes, pages, cursor, after)
      decreases MAX_PAGES_PER_TARGET + 1 - cursor.nextPage
    {
      ghost var rest := PageLoop(cursor, limit, after, world);
      LoopEnds(start, limit, run, world, writes, pages, cursor, after, rest);
      if cursor.totalPages > 0 && cursor.nextPage > cursor.totalPages {
        cursor := cursor.(completedAtMs := Some(world(after.attempts).atMs));
        assert pages + [] == pages;
        return Loop(cursor, writes + [cursor], pages, after, Complete);
      }
      if cursor.nextPage > MAX_PAGES_PER_TARGET {
        return Loop(cursor, writes, pages, after, Failed);
      }
      if after.callsUsed >= limit {
        return Loop(cursor, writes, pages, after.(stop := Some(Incomplete)), Partial);
      }
      ghost var before, was := after, cursor;
      var turn;
      after, turn := TakePage(cursor, limit, after, world);
      TakenIs(cursor, limit, before, world);
      if !turn.PageAccepted? {
        return Loop(cursor, writes, pages, after, if turn.PageFailed? then Failed else Partial);
      }
      cursor := Advanced(cursor, turn.page, turn.atMs);
      var accepted := Accepted(turn.page, turn.atMs);
      if cursor.completedAtMs.Some? {
        return Loop(cursor, writes + [cursor], pages + [accepted], after, Complete);
      }
      if turn.posture != Continue {
        return Loop(cursor, writes + [cursor], pages + [accepted], after.(stop := StopFor(turn.posture)), Partial);
      }
      LoopFurther(start, limit, run, world, writes, pages, was, before, cursor, accepted, after);
      writes := writes + [cursor];
      pages := pages + [accepted];
    }
  }

  // ------------------------------------------------------ what a visit keeps

  /** The stored cursors are the ones after each accepted page, in order. */
  ghost predicate WritesAre(start: Cursor, pages: seq<Accepted>, writes: seq<Cursor>) {
    |writes| == |pages| && forall i :: 0 <= i < |writes| ==> writes[i] == Through(start, pages[..i + 1])
  }

  lemma {:induction false} ThroughCons(start: Cursor, a: Accepted, pages: seq<Accepted>)
    ensures Through(start, [a] + pages) == Through(Advanced(start, a.page, a.atMs), pages)
  {
    var all := [a] + pages;
    if |pages| == 0 {
      assert all[..0] == [];
    } else {
      ThroughCons(start, a, pages[..|pages| - 1]);
      assert all[..|all| - 1] == [a] + pages[..|pages| - 1];
    }
  }

  lemma WritesCons(start: Cursor, a: Accepted, pages: seq<Accepted>, writes: seq<Cursor>)
    requires WritesAre(Advanced(start, a.page, a.atMs), pages, writes)
    ensures WritesAre(start, [a] + pages, [Advanced(start, a.page, a.atMs)] + writes)
  {
    var all, w := [a] + pages, [Advanced(start, a.page, a.atMs)] + writes;
    forall i | 0 <= i < |w|
      ensures w[i] == Through(start, all[..i + 1])
    {
      assert all[..i + 1] == [a] + pages[..i];
      ThroughCons(start, a, pages[..i]);
      if 0 < i {
        assert w[i] == writes[i - 1];
      }
    }
  }

  lemma OpenCons(start: Cursor, a: Accepted, pages: seq<Accepted>)
    requires start.completedAtMs.None? && OpenUntilLast(Advanced(start, a.page, a.atMs), pages)
    ensures OpenUntilLast(start, [a] + pages)
  {
    var all := [a] + pages;
    forall i | 0 <= i < |all|
      ensures Through(start, all[..i]).completedAtMs.None?
    {
      if i == 0 {
        assert all[..0] == [];
      } else {
        assert all[..i] == [a] + pages[..i - 1];
        ThroughCons(start, a, pages[..i - 1]);
      }
    }
  }

  /** The stored total had been reached before the visit. */
  predicate AlreadyDone(start: Cursor) { 0 < start.totalPages < start.nextPage }

  /** What a visit of one league-season keeps, wherever it ends. */
  ghost predicate VisitOk(start: Cursor, limit: nat, run: Progress, world: nat -> Reply, l: Loop) {
    && WritesAre(start, l.pages, l.writes) && l.cursor == Through(start, l.pages) && OpenUntilLast(start, l.pages)
    && run.attempts <= l.after.attempts <= run.attempts + RATE_LIMITED_ATTEMPTS * (|l.pages| + 1)
    && l.after.callsUsed == run.callsUsed + CallsIn(world, run.attempts, l.after.attempts)
    && l.after.callsUsed <= Max(limit, run.callsUsed)
    && (l.after.stop.None? && run.failures < FAILURE_CIRCUIT_THRESHOLD ==> l.after.failures < FAILURE_CIRCUIT_THRESHOLD)
    && (l.status == Complete <==> l.cursor.completedAtMs.Some?)
    && (l.status == Complete || l.status == Failed || (l.status == Partial && l.after.stop.Some?))
    && start.nextPage <= l.cursor.nextPage <= Max(start.nextPage, 251)
  }

  lemma VisitCons(start: Cursor, limit: nat, run: Progress, world: nat -> Reply, a: Accepted, after: Progress, rest: Loop)
    requires start.completedAtMs.None? && start.nextPage <= MAX_PAGES_PER_TARGET && run.callsUsed < limit
    requires VisitOk(Advanced(start, a.page, a.atMs), limit, after, world, rest) && after.failures == 0 && after.callsUsed <= limit
    requires run.attempts < after.attempts <= run.attempts + RATE_LIMITED_ATTEMPTS
    requires after.callsUsed == run.callsUsed + CallsIn(world, run.attempts, after.attempts)
    ensures VisitOk(start, limit, run, world, Before(Advanced(start, a.page, a.atMs), a, rest))
  {
    WritesCons(start, a, rest.pages, rest.writes);
    ThroughCons(start, a, rest.pages);
    OpenCons(start, a, rest.pages);
    CallsAdd(world, run.attempts, after.attempts, rest.after.attempts);
  }

  lemma VisitStops(c: Cursor, limit: nat, run: Progress, world: nat -> Reply, l: Loop)
    requires l.cursor == c && l.writes == [] && l.pages == [] && c.completedAtMs.None?
    requires run.attempts <= l.after.attempts <= run.attempts + RATE_LIMITED_ATTEMPTS
    requires l.after.callsUsed == run.callsUsed + CallsIn(world, run.attempts, l.after.attempts) <= Max(limit, run.callsUsed)
    requires l.after.stop.None? && run.failures < FAILURE_CIRCUIT_THRESHOLD ==> l.after.failures < FAILURE_CIRCUIT_THRESHOLD
    requires l.status == Failed || (l.status == Partial && l.after.stop.Some?)
    ensures VisitOk(c, limit, run, world, l)
  {}

  /** A page whose acceptance ends the visit. */
  lemma VisitLast(c: Cursor, limit: nat, run: Progress, world: nat -> Reply, a: Accepted, l: Loop)
    requires c.completedAtMs.None? && c.nextPage <= MAX_PAGES_PER_TARGET && l.cursor == Advanced(c, a.page, a.atMs)
    requires l.writes == [l.cursor] && l.pages == [a]
    requires run.attempts <= l.after.attempts <= run.attempts + RATE_LIMITED_ATTEMPTS
    requires l.after.callsUsed == run.callsUsed + CallsIn(world, run.attempts, l.after.attempts) <= limit && l.after.failures == 0
    requires if l.cursor.completedAtMs.Some? then l.status == Complete else l.status == Partial && l.after.stop.Some?
    ensures VisitOk(c, limit, run, world, l)
  {
    assert [a][..0] == [] && [a][..1] == [a];
  }

  /**
    The page loop of one open league-season: the pages it accepts follow the cursor without a gap;
    it stores exactly the cursors after them; and the calls it counts are the calls it made, at
    most the limit. A league-season whose stored total had been reached is completed at once.
  */
  lemma {:induction false} LoopKeeps(c: Cursor, limit: nat, run: Progress, world: nat -> Reply)
    requires run.stop.None? && c.completedAtMs.None?
    ensures var l := PageLoop(c, limit, run, world);
            if AlreadyDone(c) then l == Loop(l.cursor, [l.cursor], [], run, Complete) && l.cursor == c.(completedAtMs := l.cursor.completedAtMs) && l.cursor.completedAtMs.Some?
            else VisitOk(c, limit, run, world, l)
    decreases MAX_PAGES_PER_TARGET + 1 - c.nextPage
  {
    var l := PageLoop(c, limit, run, world);
    if !AlreadyDone(c) {
      if c.nextPage > MAX_PAGES_PER_TARGET || run.callsUsed >= limit {
        VisitStops(c, limit, run, world, l);
      } else {
        var (after, turn) := Taken(c, limit, run, world);
        TakenIs(c, limit, run, world);
        if !turn.PageAccepted? {
          VisitStops(c, limit, run, world, l);
        } else {
          var a := Accepted(turn.page, turn.atMs);
          var next := Advanced(c, turn.page, turn.atMs);
          if next.completedAtMs.Some? || turn.posture != Continue {
            VisitLast(c, limit, run, world, a, l);
          } else {
            LoopKeeps(next, limit, after, world);
            VisitCons(c, limit, run, world, a, after, PageLoop(next, limit, after, world));
          }
        }
      }
    }
  }

  // --------------------------------------------- what an accepted page held

  /** Each page of a series could be taken, as the totals named up to it say. */
  ghost predicate PagesSound(start: Cursor, pages: seq<Accepted>) {
    forall i :: 0 <= i < |pages| ==> SoundAt(start, pages, i)
  }

  ghost predicate SoundAt(start: Cursor, pages: seq<Accepted>, i: nat)
    requires i < |pages|
  {
    Sound(start.nextPage + i, TotalNamed(start.totalPages, start.nextPage, pages[..i + 1]), pages[i].page)
  }

  /** The attempts numbered from `from` below `end` fetched this page, and it was ingested. */
  ghost predicate Ingested(world: nat -> Reply, from: nat, end: nat, a: Accepted) {
    exists k: nat :: from <= k < end && Brought(world(k), a)
  }

  predicate Brought(reply: Reply, a: Accepted) {
    reply.token && reply.kind.Fetched? && reply.kind.ingested && reply.kind.page == a.page && reply.atMs == a.atMs
  }

  ghost predicate AllIngested(world: nat -> Reply, from: nat, end: nat, pages: seq<Accepted>) {
    forall i :: 0 <= i < |pages| ==> Ingested(world, from, end, pages[i])
  }

  /** The first page of a series fixes the total for the rest. */
  lemma {:induction false} TotalCons(start: Cursor, a: Accepted, pages: seq<Accepted>)
    ensures var next := Advanced(start, a.page, a.atMs);
            TotalNamed(start.totalPages, start.nextPage, [a] + pages) == TotalNamed(next.totalPages, next.nextPage, pages)
  {
    ThroughCons(start, a, pages);
    ThroughIs(start, [a] + pages);
    ThroughIs(Advanced(start, a.page, a.atMs), pages);
  }

  lemma SoundCons(start: Cursor, a: Accepted, pages: seq<Accepted>)
    requires PagesSound(Advanced(start, a.page, a.atMs), pages)
    requires Sound(start.nextPage, TotalNamed(start.totalPages, start.nextPage, [a]), a.page)
    ensures PagesSound(start, [a] + pages)
  {
    var all, next := [a] + pages, Advanced(start, a.page, a.atMs);
    forall i | 0 <= i < |all|
      ensures SoundAt(start, all, i)
    {
      if i == 0 {
        assert all[..1] == [a];
      } else {
        assert SoundAt(next, pages, i - 1);
        assert all[..i + 1] == [a] + pages[..i];
        TotalCons(start, a, pages[..i]);
      }
    }
  }

  lemma IngestedCons(world: nat -> Reply, from: nat, mid: nat, end: nat, a: Accepted, pages: seq<Accepted>)
    requires from <= mid <= end && Ingested(world, from, mid, a) && AllIngested(world, mid, end, pages)
    ensures AllIngested(world, from, end, [a] + pages)
  {
    var all := [a] + pages;
    forall i | 0 <= i < |all|
      ensures Ingested(world, from, end, all[i])
    {
      if 0 < i {
        assert Ingested(world, mid, end, pages[i - 1]);
        var k: nat :| mid <= k < end && Brought(world(k), pages[i - 1]);
      }
    }
  }

  lemma FitIs(c: Cursor, page: Page)
    ensures Fit(c, page) <==> !Faulty(c, page)
  {}

  /** One more page, fit for the cursor after the others. */
  lemma {:induction false} SoundAppend(start: Cursor, pages: seq<Accepted>, a: Accepted)
    requires PagesSound(start, pages) && Fit(Cursor(start.nextPage + |pages|, TotalNamed(start.totalPages, start.nextPage, pages), 0, None), a.page)
    ensures PagesSound(start, pages + [a])
  {
    var all := pages + [a];
    forall i | 0 <= i < |all|
      ensures SoundAt(start, all, i)
    {
      if i < |pages| {
        assert SoundAt(start, pages, i);
        assert all[..i + 1] == pages[..i + 1];
      } else {
        assert all[..i + 1] == all;
        assert all[..|all| - 1] == pages;
      }
    }
  }

  /** The page one turn accepts was ingested, and could be taken. */
  lemma TurnSound(c: Cursor, limit: nat, run: Progress, world: nat -> Reply) returns (a: Accepted)
    requires run.stop.None? && run.callsUsed < limit && Taken(c, limit, run, world).1.PageAccepted?
    ensures var (after, turn) := Taken(c, limit, run, world);
            && a == Accepted(turn.page, turn.atMs) && run.attempts < after.attempts && after.stop.None?
            && Ingested(world, run.attempts, after.attempts, a)
            && Sound(c.nextPage, TotalNamed(c.totalPages, c.nextPage, [a]), a.page)
  {
    var (after, turn) := Taken(c, limit, run, world);
    TakenIs(c, limit, run, world);
    a := Accepted(turn.page, turn.atMs);
    assert Brought(world(after.attempts - 1), a);
    assert [a][..0] == [];
  }

  /**
    However a visit goes, every page it accepts was fetched and ingested by one of its own attempts;
    none names errors with no rows; and none is empty before the last total named by then.
  */
  lemma {:induction false} AcceptedPagesAreSound(c: Cursor, limit: nat, run: Progress, world: nat -> Reply)
    requires run.stop.None? && c.completedAtMs.None?
    ensures var l := PageLoop(c, limit, run, world);
            PagesSound(c, l.pages) && AllIngested(world, run.attempts, l.after.attempts, l.pages) && run.attempts <= l.after.attempts
    decreases MAX_PAGES_PER_TARGET + 1 - c.nextPage
  {
    var l := PageLoop(c, limit, run, world);
    if !AlreadyDone(c) && c.nextPage <= MAX_PAGES_PER_TARGET && run.callsUsed < limit {
      var (after, turn) := Taken(c, limit, run, world);
      TakenIs(c, limit, run, world);
      if turn.PageAccepted? {
        var a := TurnSound(c, limit, run, world);
        var next := Advanced(c, turn.page, turn.atMs);
        if next.completedAtMs.Some? || turn.posture != Continue {
          SoundCons(c, a, []);
          assert [a] + [] == [a];
        } else {
          AcceptedPagesAreSound(next, limit, after, world);
          var rest := PageLoop(next, limit, after, world);
          SoundCons(c, a, rest.pages);
          IngestedCons(world, run.attempts, after.attempts, rest.after.attempts, a, rest.pages);
        }
      }
    }
  }

  /** The start never changes. */
  lemma {:induction false} LoopKeepsStart(c: Cursor, limit: nat, run: Progress, world: nat -> Reply)
    requires run.stop.None? && c.completedAtMs.None?
    ensures PageLoop(c, limit, run, world).cursor.startedAtMs == c.startedAtMs
  {
    LoopKeeps(c, limit, run, world);
    ThroughIs(c, PageLoop(c, limit, run, world).pages);
  }

  // ------------------------------------------------------ all league-seasons

  datatype Target = Target(leagueId: nat, season: nat)

  type Store = map<Target, Cursor>

  /** The cursor a run resumes: not after a reset, nor past the mode's window. */
  function ReadCursor(store: Store, target: Target, reset: bool, nowMs: int, windowMs: int): Option<Cursor> {
    if reset || target !in store || nowMs - store[target].startedAtMs > windowMs then None else Some(store[target])
  }

  function Opening(existing: Option<Cursor>, nowMs: int): Cursor {
    if existing.Some? then existing.value else Cursor(1, 0, nowMs, None)
  }

  /** Where a visit starts: at the stored cursor, unless a reset or its age forbids, else at page 1 with the run's own start. */
  function StartsAt(store: Store, t: Target, job: Job): Cursor {
    if t in store && !job.reset && job.nowMs <= store[t].startedAtMs + job.windowMs then store[t] else Cursor(1, 0, job.nowMs, None)
  }

  lemma StartsAtIs(store: Store, t: Target, job: Job)
    ensures Opening(ReadCursor(store, t, job.reset, job.nowMs, job.windowMs), job.nowMs) == StartsAt(store, t, job)
  {}

  /** Later work on a league-season: the same start, and no page given up. */
  predicate Further(before: Option<Cursor>, after: Option<Cursor>) {
    before.Some? ==> after.Some? && after.value.startedAtMs == before.value.startedAtMs && before.value.nextPage <= after.value.nextPage
  }

  datatype Overall = Overall(store: Store, run: Progress, statuses: seq<Status>)

  /** What a run is asked for. */
  datatype Job = Job(held: set<Target>, reset: bool, nowMs: int, windowMs: int, limit: nat)

  function VisitTarget(o: Overall, t: Target, job: Job, world: nat -> Reply): Overall {
    if o.run.stop.Some? then o.(statuses := o.statuses + [NotStarted])
    else if t in job.held then o.(statuses := o.statuses + [InProgress])
    else
      var existing := ReadCursor(o.store, t, job.reset, job.nowMs, job.windowMs);
      if existing.Some? && existing.value.completedAtMs.Some? then o.(statuses := o.statuses + [Fresh])
      else
        var l := PageLoop(Opening(existing, job.nowMs), job.limit, o.run, world);
        Overall(if l.writes == [] then o.store else o.store[t := l.writes[|l.writes| - 1]], l.after, o.statuses + [Reported(l)])
  }

  function VisitAll(o: Overall, targets: seq<Target>, job: Job, world: nat -> Reply): Overall
    decreases |targets|
  {
    if |targets| == 0 then o else VisitAll(VisitTarget(o, targets[0], job, world), targets[1..], job, world)
  }

  function Launch(store: Store): Overall { Overall(store, Progress(0, 0, 0, None), []) }

  /** The run of the code over its league-seasons, alone on the store. */
  method RunTargets(targets: seq<Target>, initial: Store, job: Job, world: nat -> Reply) returns (o: Overall)
    ensures o == VisitAll(Launch(initial), targets, job, world)
  {
    var store, run, statuses := initial, Progress(0, 0, 0, None), [];
    for n := 0 to |targets|
      invariant VisitAll(Launch(initial), targets, job, world) == VisitAll(Overall(store, run, statuses), targets[n..], job, world)
    {
      var target := targets[n];
      assert targets[n..][0] == target && targets[n..][1..] == targets[n + 1..];
      if run.stop.Some? {
        statuses := statuses + [NotStarted];
        continue;
      }
      if target in job.held {
        statuses := statuses + [InProgress];
        continue;
      }
      var existing := ReadCursor(store, target, job.reset, job.nowMs, job.windowMs);
      if existing.Some? && existing.value.completedAtMs.Some? {
        statuses := statuses + [Fresh];
        continue;
      }
      var l := FetchTarget(Opening(existing, job.nowMs), job.limit, run, world);
      run := l.after;
      statuses := statuses + [Reported(l)];
      if l.writes != [] {
        store := store[target := l.writes[|l.writes| - 1]];
      }
    }
    o := Overall(store, run, statuses);
  }

  // ------------------------------------------------------ what a run keeps

  /** What a visit leaves in the store is its cursor, if it stored any. */
  lemma {:induction false} LastWrite(c: Cursor, limit: nat, run: Progress, world: nat -> Reply)
    requires run.stop.None? && c.completedAtMs.None?
    ensures var l := PageLoop(c, limit, run, world);
            && (l.writes != [] ==> l.writes[|l.writes| - 1] == l.cursor)
            && (l.writes == [] ==> l.cursor == c)
  {
    var l := PageLoop(c, limit, run, world);
    LoopKeeps(c, limit, run, world);
    if !AlreadyDone(c) && l.writes != [] {
      assert l.pages[..|l.pages|] == l.pages;
    }
  }

  /** How far a run has got: `n` of its league-seasons visited, from `initial`. */
  ghost predicate RunOk(o: Overall, initial: Store, seen: seq<Target>, job: Job, world: nat -> Reply) {
    && |o.statuses| == |seen|
    && o.run.callsUsed == CallsIn(world, 0, o.run.attempts) <= job.limit
    && (o.run.stop.None? ==> o.run.failures < FAILURE_CIRCUIT_THRESHOLD && forall i :: 0 <= i < |seen| ==> o.statuses[i] !in {NotStarted, Partial})
    && (forall i :: 0 <= i < |seen| && o.statuses[i] in {Complete, Fresh} ==> seen[i] in o.store && o.store[seen[i]].completedAtMs.Some?)
    && (forall t :: t !in seen || t in job.held ==> (t in o.store <==> t in initial) && (t in initial ==> o.store[t] == initial[t]))
    && (!job.reset ==> NoneSetBack(initial, o.store, job.nowMs, job.windowMs))
  }

  lemma VisitedStore(o: Overall, t: Target, job: Job, world: nat -> Reply)
    requires o.run.stop.None? && t !in job.held
    requires var existing := ReadCursor(o.store, t, job.reset, job.nowMs, job.windowMs); existing.None? || existing.value.completedAtMs.None?
    ensures var start := Opening(ReadCursor(o.store, t, job.reset, job.nowMs, job.windowMs), job.nowMs);
            var l, v := PageLoop(start, job.limit, o.run, world), VisitTarget(o, t, job, world);
            && v.run == l.after && v.statuses == o.statuses + [Reported(l)]
            && v.store == (if l.writes == [] then o.store else o.store[t := l.cursor])
            && l.cursor.startedAtMs == start.startedAtMs && start.nextPage <= l.cursor.nextPage
            && (Reported(l) == Complete ==> l.writes != [] && l.cursor.completedAtMs.Some?)
            && (l.after.stop.None? ==> Reported(l) in {Complete, Failed}) && Reported(l) in {Complete, Failed, Partial, NotStarted}
            && o.run.attempts <= l.after.attempts
            && l.after.callsUsed == o.run.callsUsed + CallsIn(world, o.run.attempts, l.after.attempts)
            && l.after.callsUsed <= Max(job.limit, o.run.callsUsed)
            && (l.after.stop.None? && o.run.failures < FAILURE_CIRCUIT_THRESHOLD ==> l.after.failures < FAILURE_CIRCUIT_THRESHOLD)
  {
    var start := Opening(ReadCursor(o.store, t, job.reset, job.nowMs, job.windowMs), job.nowMs);
    LoopKeeps(start, job.limit, o.run, world);
    LoopKeepsStart(start, job.limit, o.run, world);
    LastWrite(start, job.limit, o.run, world);
  }

  /**
    How a league-season is reported: not started once the run has stopped, in progress while it is held
    elsewhere, fresh if the cursor a run would resume is completed, and else as its visit ended; a visit
    that the run's stop left unfinished is not started if it accepted no page, and partial if it did.
  */
  lemma VisitReports(o: Overall, t: Target, job: Job, world: nat -> Reply)
    ensures var v := VisitTarget(o, t, job, world);
            var start := StartsAt(o.store, t, job);
            |v.statuses| == |o.statuses| + 1 &&
            var status := v.statuses[|o.statuses|];
            if o.run.stop.Some? then status == NotStarted && v.store == o.store && v.run == o.run
            else if t in job.held then status == InProgress && v.store == o.store && v.run == o.run
            else if start.completedAtMs.Some? then status == Fresh && v.store == o.store && v.run == o.run
            else
              var l := PageLoop(start, job.limit, o.run, world);
              && (status == Complete <==> l.cursor.completedAtMs.Some?)
              && (status == NotStarted <==> l.status == Partial && l.pages == [])
              && (status == Partial <==> l.status == Partial && l.pages != [])
              && status in {Complete, NotStarted, Partial, Failed}
  {
    StartsAtIs(o.store, t, job);
    var start := StartsAt(o.store, t, job);
    if o.run.stop.None? && t !in job.held && start.completedAtMs.None? {
      LoopKeeps(start, job.limit, o.run, world);
    }
  }

  /** No resumable cursor is behind where it was in `initial`. */
  ghost predicate NoneSetBack(initial: Store, store: Store, nowMs: int, windowMs: int) {
    forall t :: Further(ReadCursor(initial, t, false, nowMs, windowMs), ReadCursor(store, t, false, nowMs, windowMs))
  }

  lemma StoredIsFurther(initial: Store, store: Store, t: Target, c: Cursor, nowMs: int, windowMs: int)
    requires NoneSetBack(initial, store, nowMs, windowMs) && 0 <= windowMs
    requires var start := Opening(ReadCursor(store, t, false, nowMs, windowMs), nowMs);
             c.startedAtMs == start.startedAtMs && start.nextPage <= c.nextPage
    ensures NoneSetBack(initial, store[t := c], nowMs, windowMs)
  {
    forall u
      ensures Further(ReadCursor(initial, u, false, nowMs, windowMs), ReadCursor(store[t := c], u, false, nowMs, windowMs))
    {
      assert Further(ReadCursor(initial, u, false, nowMs, windowMs), ReadCursor(store, u, false, nowMs, windowMs));
    }
  }

  lemma VisitKeepsRunOk(o: Overall, initial: Store, seen: seq<Target>, t: Target, job: Job, world: nat -> Reply)
    requires RunOk(o, initial, seen, job, world) && t !in seen && 0 <= job.windowMs
    ensures RunOk(VisitTarget(o, t, job, world), initial, seen + [t], job, world)
  {
    var existing := ReadCursor(o.store, t, job.reset, job.nowMs, job.windowMs);
    if o.run.stop.None? && t !in job.held && (existing.None? || existing.value.completedAtMs.None?) {
      VisitedStore(o, t, job, world);
      var l := PageLoop(Opening(existing, job.nowMs), job.limit, o.run, world);
      CallsAdd(world, 0, o.run.attempts, l.after.attempts);
      if !job.reset {
        StoredIsFurther(initial, o.store, t, l.cursor, job.nowMs, job.windowMs);
      }
    }
  }

  lemma {:induction false} VisitsKeepRunOk(o: Overall, initial: Store, seen: seq<Target>, targets: seq<Target>, job: Job, world: nat -> Reply)
    requires RunOk(o, initial, seen, job, world) && 0 <= job.windowMs
    requires forall i, j :: 0 <= i < j < |seen + targets| ==> (seen + targets)[i] != (seen + targets)[j]
    ensures RunOk(VisitAll(o, targets, job, world), initial, seen + targets, job, world)
    decreases |targets|
  {
    if |targets| == 0 {
      assert seen + targets == seen;
    } else {
      assert seen + [targets[0]] + targets[1..] == seen + targets;
      forall i | 0 <= i < |seen|
        ensures seen[i] != targets[0]
      {
        assert (seen + targets)[i] == seen[i] && (seen + targets)[|seen|] == targets[0];
      }
      VisitKeepsRunOk(o, initial, seen, targets[0], job, world);
      VisitsKeepRunOk(VisitTarget(o, targets[0], job, world), initial, seen + [targets[0]], targets[1..], job, world);
    }
  }

  ghost predicate Distinct(targets: seq<Target>) { forall i, j :: 0 <= i < j < |targets| ==> targets[i] != targets[j] }

  /**
    A whole run over its league-seasons: the calls counted are the calls made, within the limit; a
    league-season that is held elsewhere or not asked for keeps its cursor; no resumable cursor is
    set back; a league-season reported complete or fresh has a completed cursor stored; and a run
    that did not stop has left none of them unfinished but by a failure.
  */
  lemma {:induction false} RunKeeps(targets: seq<Target>, initial: Store, job: Job, world: nat -> Reply)
    requires Distinct(targets) && 0 <= job.windowMs
    ensures RunOk(VisitAll(Launch(initial), targets, job, world), initial, targets, job, world)
  {
    assert [] + targets == targets;
    VisitsKeepRunOk(Launch(initial), initial, [], targets, job, world);
  }

  // -------------------------------------------------------- how a run stops

  /** The reply asks the run to stop without an abort, or to abort it. */
  predicate AsksTo(reply: Reply, posture: Posture) {
    reply.token && (reply.kind == Denied(posture) || (reply.kind.Fetched? && reply.kind.after == posture))
  }

  /**
    A page ends the run as incomplete without a token, after a refused last attempt, or denied with a
    posture other than abort; as aborted if denied with that, or as the third failure in a row.
  */
  lemma TurnStops(c: Cursor, limit: nat, run: Progress, world: nat -> Reply)
    requires run.stop.None? && run.callsUsed < limit
    ensures var (after, turn) := Taken(c, limit, run, world);
            run.attempts < after.attempts &&
            var last := world(after.attempts - 1);
            match turn
            case Stopped =>
              && (after.stop == Some(Aborted) <==> last.token && last.kind == Denied(Abort))
              && (after.stop == Some(Incomplete) <==> !last.token || last.kind.RateLimited? || last.kind == Denied(Continue) || last.kind == Denied(CachedOnly))
            case PageFailed => after.stop == if after.failures >= 3 then Some(Aborted) else None
            case PageAccepted(_, _, posture) => after.stop == None && last.token && last.kind.Fetched? && last.kind.after == posture
  {
    AttemptsAre(limit, run, world, RATE_LIMITED_ATTEMPTS);
    TakenIs(c, limit, run, world);
  }

  /**
    A visit ends the run as aborted exactly at the third failed page in a row, or when it ends
    unfinished on a reply with an abort posture; in every other way of ending unfinished it ends it
    as incomplete; and a completed league-season stops nothing.
  */
  lemma {:induction false} LoopStops(c: Cursor, limit: nat, run: Progress, world: nat -> Reply)
    requires run.stop.None? && c.completedAtMs.None? && run.failures < FAILURE_CIRCUIT_THRESHOLD
    ensures var l := PageLoop(c, limit, run, world);
            && (l.after.stop == Some(Aborted) <==>
                l.after.failures >= 3 || (l.status == Partial && run.attempts < l.after.attempts && AsksTo(world(l.after.attempts - 1), Abort)))
            && (l.after.stop == Some(Incomplete) <==> l.status == Partial && l.after.stop != Some(Aborted))
            && (l.status == Complete ==> l.after.stop == None)
    decreases MAX_PAGES_PER_TARGET + 1 - c.nextPage
  {
    if !AlreadyDone(c) && c.nextPage <= MAX_PAGES_PER_TARGET && run.callsUsed < limit {
      var (after, turn) := Taken(c, limit, run, world);
      TakenIs(c, limit, run, world);
      TurnStops(c, limit, run, world);
      match turn
      case Stopped =>
        assert after.stop.Some? && (after.stop.value.Incomplete? || after.stop.value.Aborted?);
        assert after.stop == Some(Aborted) <==> AsksTo(world(after.attempts - 1), Abort);
      case PageFailed =>
      case PageAccepted(page, atMs, posture) =>
        assert AsksTo(world(after.attempts - 1), Abort) <==> posture == Abort;
        var next := Advanced(c, page, atMs);
        if next.completedAtMs.None? {
          match posture
          case Continue =>
            LoopStops(next, limit, after, world);
            AcceptedPagesAreSound(next, limit, after, world);
            assert PageLoop(c, limit, run, world).after == PageLoop(next, limit, after, world).after;
          case CachedOnly =>
          case Abort =>
        }
    }
  }

  // ------------------------------------------------ what a run leaves stored

  /** `c` is where these pages, each ingested in this run and fit to be taken, lead from `start`; with none, `start` had its total reached. */
  ghost predicate CameBy(c: Cursor, start: Cursor, world: nat -> Reply, end: nat, pages: seq<Accepted>) {
    && PagesSound(start, pages) && AllIngested(world, 0, end, pages)
    && if pages == [] then AlreadyDone(start) && c == start.(completedAtMs := c.completedAtMs) else c == Through(start, pages)
  }

  ghost predicate CameFrom(c: Cursor, start: Cursor, world: nat -> Reply, end: nat) {
    exists pages: seq<Accepted> :: CameBy(c, start, world, end, pages)
  }

  /** What was stored before the run is untouched, or led on by sound pages; what was not visited yet is untouched. */
  ghost predicate StoreSound(o: Overall, initial: Store, seen: seq<Target>, job: Job, world: nat -> Reply) {
    && (forall t :: t in o.store ==> (t in initial && o.store[t] == initial[t]) || Led(o, initial, t, job, world))
    && (forall t :: t !in seen ==> (t in o.store <==> t in initial) && (t in initial ==> o.store[t] == initial[t]))
  }

  ghost predicate Led(o: Overall, initial: Store, t: Target, job: Job, world: nat -> Reply)
    requires t in o.store
  {
    CameFrom(o.store[t], StartsAt(initial, t, job), world, o.run.attempts)
  }

  lemma CameLater(c: Cursor, start: Cursor, world: nat -> Reply, end: nat, later: nat)
    requires CameFrom(c, start, world, end) && end <= later
    ensures CameFrom(c, start, world, later)
  {
    var pages: seq<Accepted> :| CameBy(c, start, world, end, pages);
    forall i | 0 <= i < |pages|
      ensures Ingested(world, 0, later, pages[i])
    {
      assert Ingested(world, 0, end, pages[i]);
    }
    assert CameBy(c, start, world, later, pages);
  }

  lemma {:induction false} VisitLeads(start: Cursor, limit: nat, run: Progress, world: nat -> Reply)
    requires run.stop.None? && start.completedAtMs.None?
    ensures var l := PageLoop(start, limit, run, world);
            run.attempts <= l.after.attempts && (l.writes != [] ==> CameFrom(l.cursor, start, world, l.after.attempts))
  {
    var l := PageLoop(start, limit, run, world);
    LoopKeeps(start, limit, run, world);
    AcceptedPagesAreSound(start, limit, run, world);
    if l.writes != [] {
      forall i | 0 <= i < |l.pages|
        ensures Ingested(world, 0, l.after.attempts, l.pages[i])
      {
        assert Ingested(world, run.attempts, l.after.attempts, l.pages[i]);
      }
      assert CameBy(l.cursor, start, world, l.after.attempts, l.pages);
    }
  }

  lemma VisitKeepsStoreSound(o: Overall, initial: Store, seen: seq<Target>, t: Target, job: Job, world: nat -> Reply)
    requires StoreSound(o, initial, seen, job, world) && t !in seen
    ensures StoreSound(VisitTarget(o, t, job, world), initial, seen + [t], job, world)
  {
    var existing := ReadCursor(o.store, t, job.reset, job.nowMs, job.windowMs);
    assert existing == ReadCursor(initial, t, job.reset, job.nowMs, job.windowMs);
    if o.run.stop.None? && t !in job.held && (existing.None? || existing.value.completedAtMs.None?) {
      var start := Opening(existing, job.nowMs);
      StartsAtIs(initial, t, job);
      VisitLeads(start, job.limit, o.run, world);
      LastWrite(start, job.limit, o.run, world);
      var v := VisitTarget(o, t, job, world);
      forall u | u in v.store && !(u in initial && v.store[u] == initial[u])
        ensures Led(v, initial, u, job, world)
      {
        if u != t {
          assert Led(o, initial, u, job, world);
          CameLater(o.store[u], StartsAt(initial, u, job), world, o.run.attempts, v.run.attempts);
        }
      }
    }
  }

  lemma {:induction false} VisitsKeepStoreSound(o: Overall, initial: Store, seen: seq<Target>, targets: seq<Target>, job: Job, world: nat -> Reply)
    requires StoreSound(o, initial, seen, job, world) && Distinct(seen + targets)
    ensures StoreSound(VisitAll(o, targets, job, world), initial, seen + targets, job, world)
    decreases |targets|
  {
    if |targets| == 0 {
      assert seen + targets == seen;
    } else {
      assert seen + [targets[0]] + targets[1..] == seen + targets;
      forall i | 0 <= i < |seen|
        ensures seen[i] != targets[0]
      {
        assert (seen + targets)[i] == seen[i] && (seen + targets)[|seen|] == targets[0];
      }
      VisitKeepsStoreSound(o, initial, seen, targets[0], job, world);
      VisitsKeepStoreSound(VisitTarget(o, targets[0], job, world), initial, seen + [targets[0]], targets[1..], job, world);
    }
  }

  /**
    Over a whole run, a cursor in the store is the one that was there before, or the one after a
    series of pages from where it stood, each fetched and ingested in this run, naming no errors
    without rows, and not empty before the last total named by then.
  */
  lemma {:induction false} StoredPagesAreSound(targets: seq<Target>, initial: Store, job: Job, world: nat -> Reply)
    requires Distinct(targets)
    ensures StoreSound(VisitAll(Launch(initial), targets, job, world), initial, targets, job, world)
  {
    assert [] + targets == targets;
    VisitsKeepStoreSound(Launch(initial), initial, [], targets, job, world);
  }
}
