/**
  The per-workload in-flight guard of the polling loop (`runRefresh` inside `start()` of
  src/worker/ingestion.ts): a claim per workload, a deadline after which the next tick
  drops it, and a settle that clears only its own claim.
*/
module TickGuard {
  import opened Common

  const MIN_TICK_DEADLINE_MS: int := 2 * 60 * 1_000
  const MAX_TICK_DEADLINE_MS: int := 15 * 60 * 1_000

  /** Four intervals, at least two and at most fifteen minutes. */
  function DefaultTickDeadlineMs(intervalMs: int): int {
    Min(MAX_TICK_DEADLINE_MS, Max(MIN_TICK_DEADLINE_MS, intervalMs * 4))
  }

  type Workload = string

  datatype Claim = Claim(startedAt: int, run: nat)

  datatype Guard = Guard(inFlight: map<Workload, Claim>, runCounter: nat)

  datatype TickOutcome = SkippedInFlight | Started(run: nat, displaced: bool)

  /** A tick of `w`: skipped while a younger claim is held, otherwise a new run. */
  function Ticked(g: Guard, w: Workload, now: int, deadlineMs: int): (Guard, TickOutcome) {
    if w in g.inFlight && Max0(now - g.inFlight[w].startedAt) < deadlineMs then (g, SkippedInFlight)
    else
      var run := g.runCounter + 1;
      (Guard(g.inFlight[w := Claim(now, run)], run), Started(run, w in g.inFlight))
  }

  function Settled(g: Guard, w: Workload, run: nat): Guard {
    if w in g.inFlight && g.inFlight[w].run == run then g.(inFlight := g.inFlight - {w}) else g
  }

  class RefreshGuard {
    var inFlight: map<Workload, Claim>
    var runCounter: nat

    ghost function State(): Guard
      reads this
    {
      Guard(inFlight, runCounter)
    }

    constructor ()
      ensures State() == Guard(map[], 0)
    {
      inFlight, runCounter := map[], 0;
    }

    method RunRefresh(w: Workload, now: int, deadlineMs: int) returns (outcome: TickOutcome)
      modifies this
      ensures (State(), outcome) == Ticked(old(State()), w, now, deadlineMs)
    {
      var displaced := false;
      if w in inFlight {
        var runningMs := Max0(now - inFlight[w].startedAt);
        if runningMs < deadlineMs {
          return SkippedInFlight;
        }
        inFlight := inFlight - {w};
        displaced := true;
      }
      runCounter := runCounter + 1;
      inFlight := inFlight[w := Claim(now, runCounter)];
      assert inFlight == old(inFlight)[w := Claim(now, runCounter)];
      return Started(runCounter, displaced);
    }

    method Settle(w: Workload, run: nat)
      modifies this
      ensures State() == Settled(old(State()), w, run)
    {
      if w in inFlight && inFlight[w].run == run {
        inFlight := inFlight - {w};
      }
    }
  }

  // ------------------------------------------------------------------- runs

  /** Holding: started, not settled, and no later tick has dropped it. */
  datatype Status = Holding | Displaced | Over

  datatype RunRecord = RunRecord(workload: Workload, startedAt: int, status: Status)

  /** The guard together with every run it ever started; `runs[k]` is run number k + 1. */
  datatype World = World(guard: Guard, runs: seq<RunRecord>, clock: int)

  /** A settle names its run by its place in the record. */
  datatype Event = Tick(w: Workload, at: int) | Settle(k: nat, at: int)

  /** A run settles at most once; it may hang for ever. Ticks come in any order. */
  predicate EventOk(x: World, e: Event) {
    x.clock <= e.at && (e.Settle? ==> e.k < |x.runs| && x.runs[e.k].status != Over)
  }

  /** The record after a tick of `w` has dropped the claim it found, if any. */
  function Drop(x: World, w: Workload): seq<RunRecord> {
    if w in x.guard.inFlight && 1 <= x.guard.inFlight[w].run <= |x.runs|
    then var k := x.guard.inFlight[w].run - 1; x.runs[k := x.runs[k].(status := Displaced)]
    else x.runs
  }

  function Step(x: World, options: Options, e: Event): World
    requires EventOk(x, e)
  {
    match e
    case Tick(w, at) =>
      var (g, outcome) := Ticked(x.guard, w, at, DeadlineFor(options, w));
      if outcome == SkippedInFlight then x.(clock := at)
      else World(g, Drop(x, w) + [RunRecord(w, at, Holding)], at)
    case Settle(k, at) =>
      World(Settled(x.guard, x.runs[k].workload, k + 1), x.runs[k := x.runs[k].(status := Over)], at)
  }

  /** The deadlines a worker is given, and the intervals its workloads are ticked at. */
  datatype Options = Options(tickDeadlineMs: map<Workload, int>, intervals: map<Workload, int>)

  function DeadlineFor(options: Options, w: Workload): int {
    if w in options.tickDeadlineMs then options.tickDeadlineMs[w]
    else DefaultTickDeadlineMs(if w in options.intervals then options.intervals[w] else 0)
  }

  /** A deadline given holds; without one it is four intervals, but two minutes at least and fifteen at most. */
  lemma DeadlineIs(options: Options, w: Workload)
    ensures DeadlineFor(options, w) ==
            if w in options.tickDeadlineMs then options.tickDeadlineMs[w]
            else if w !in options.intervals || options.intervals[w] <= 30_000 then 120_000
            else if options.intervals[w] <= 225_000 then 4 * options.intervals[w]
            else 900_000
  {}

  predicate RunOk(x: World, options: Options, events: seq<Event>)
    decreases |events|
  {
    |events| == 0 || (EventOk(x, events[0]) && RunOk(Step(x, options, events[0]), options, events[1..]))
  }

  function Run(x: World, options: Options, events: seq<Event>): World
    requires RunOk(x, options, events)
    decreases |events|
  {
    if |events| == 0 then x else Run(Step(x, options, events[0]), options, events[1..])
  }

  const Boot := World(Guard(map[], 0), [], 0)

  // -------------------------------------------------------------- invariant

  /** Run k + 1 is the one that holds its workload's claim. */
  predicate HoldsClaim(x: World, k: nat) {
    && k < |x.runs|
    && x.runs[k].workload in x.guard.inFlight
    && x.guard.inFlight[x.runs[k].workload] == Claim(x.runs[k].startedAt, k + 1)
  }

  /** The claim of `w` belongs to a run of `w` that is still holding. */
  predicate ClaimOk(x: World, w: Workload)
    requires w in x.guard.inFlight
  {
    var run := x.guard.inFlight[w].run;
    1 <= run && HoldsClaim(x, run - 1) && x.runs[run - 1].workload == w && x.runs[run - 1].status == Holding
  }

  ghost predicate Inv(x: World) {
    && x.guard.runCounter == |x.runs|
    && (forall w :: w in x.guard.inFlight ==> ClaimOk(x, w))
    && (forall k :: 0 <= k < |x.runs| && x.runs[k].status == Holding ==> HoldsClaim(x, k))
  }

  lemma StepKeepsInv(x: World, options: Options, e: Event)
    requires Inv(x) && EventOk(x, e)
    ensures Inv(Step(x, options, e))
  {
    match e
    case Settle(k, at) => SettleKeepsInv(x, options, k, at);
    case Tick(w, at) =>
      if Ticked(x.guard, w, at, DeadlineFor(options, w)).1.Started? {
        StartKeepsInv(x, options, w, at);
      }
  }

  lemma SettleKeepsInv(x: World, options: Options, k: nat, at: int)
    requires Inv(x) && EventOk(x, Settle(k, at))
    ensures Inv(Step(x, options, Settle(k, at)))
  {
    var y := Step(x, options, Settle(k, at));
    forall w | w in y.guard.inFlight
      ensures ClaimOk(y, w)
    {
      assert ClaimOk(x, w);
    }
    forall j | 0 <= j < |y.runs| && y.runs[j].status == Holding
      ensures HoldsClaim(y, j)
    {
      assert HoldsClaim(x, j);
    }
  }

  lemma StartKeepsInv(x: World, options: Options, w: Workload, at: int)
    requires Inv(x) && EventOk(x, Tick(w, at))
    requires Ticked(x.guard, w, at, DeadlineFor(options, w)).1.Started?
    ensures Inv(Step(x, options, Tick(w, at)))
  {
    var y := Step(x, options, Tick(w, at));
    if w in x.guard.inFlight {
      assert ClaimOk(x, w);
    }
    forall v | v in y.guard.inFlight
      ensures ClaimOk(y, v)
    {
      if v != w {
        assert ClaimOk(x, v);
      }
    }
    forall j | 0 <= j < |y.runs| && y.runs[j].status == Holding
      ensures HoldsClaim(y, j)
    {
      if j < |x.runs| {
        assert HoldsClaim(x, j);
      }
    }
  }

  lemma {:induction false} RunKeepsInv(x: World, options: Options, events: seq<Event>)
    requires Inv(x) && RunOk(x, options, events)
    ensures Inv(Run(x, options, events))
    decreases |events|
  {
    if |events| > 0 {
      StepKeepsInv(x, options, events[0]);
      RunKeepsInv(Step(x, options, events[0]), options, events[1..]);
    }
  }

  // ----------------------------------------------------------- main results

  /** In every reachable state, at most one run of a workload holds it, and it is the claimed one. */
  lemma {:induction false} OneRunPerWorkload(options: Options, events: seq<Event>, j: nat, k: nat)
    requires RunOk(Boot, options, events)
    requires var x := Run(Boot, options, events);
             && j < |x.runs| && k < |x.runs| && x.runs[j].workload == x.runs[k].workload
             && x.runs[j].status == Holding && x.runs[k].status == Holding
    ensures j == k
    ensures var x := Run(Boot, options, events);
            x.runs[k].workload in x.guard.inFlight && x.guard.inFlight[x.runs[k].workload].run == k + 1
  {
    RunKeepsInv(Boot, options, events);
    var x := Run(Boot, options, events);
    assert HoldsClaim(x, j) && HoldsClaim(x, k);
  }

  /**
    A tick never displaces a run younger than its options, and always displaces one that
    has reached it, starting a new run in its place.
  */
  lemma {:induction false} TickDisplacesExactlyOverdue(options: Options, events: seq<Event>, w: Workload, at: int, k: nat)
    requires RunOk(Boot, options, events) && EventOk(Run(Boot, options, events), Tick(w, at))
    requires var x := Run(Boot, options, events);
             k < |x.runs| && x.runs[k].workload == w && x.runs[k].status == Holding && x.runs[k].startedAt <= at
    ensures var x := Run(Boot, options, events);
            var y := Step(x, options, Tick(w, at));
            if at - x.runs[k].startedAt < DeadlineFor(options, w) then y == x.(clock := at)
            else
              && y.runs == x.runs[k := x.runs[k].(status := Displaced)] + [RunRecord(w, at, Holding)]
              && y.guard.inFlight == x.guard.inFlight[w := Claim(at, |x.runs| + 1)]
  {
    RunKeepsInv(Boot, options, events);
    var x := Run(Boot, options, events);
    assert HoldsClaim(x, k);
  }

  /** The late settle of a displaced run changes no claim; the settle of a holder frees its workload and no other. */
  lemma {:induction false} SettleClearsOnlyItsOwn(options: Options, events: seq<Event>, k: nat, at: int)
    requires RunOk(Boot, options, events) && EventOk(Run(Boot, options, events), Settle(k, at))
    ensures var x := Run(Boot, options, events);
            var y := Step(x, options, Settle(k, at));
            if x.runs[k].status == Displaced then y.guard == x.guard
            else y.guard == x.guard.(inFlight := x.guard.inFlight - {x.runs[k].workload})
  {
    RunKeepsInv(Boot, options, events);
    var x := Run(Boot, options, events);
    var w := x.runs[k].workload;
    if w in x.guard.inFlight {
      assert ClaimOk(x, w);
    }
    if x.runs[k].status == Holding {
      assert HoldsClaim(x, k);
    }
  }

  // --------------------------------------------- how long a hung run blocks

  /** When the latest run of `w` started, among the first `n` runs. */
  function LastStart(runs: seq<RunRecord>, w: Workload): Option<int> {
    if |runs| == 0 then None
    else if runs[|runs| - 1].workload == w then Some(runs[|runs| - 1].startedAt)
    else LastStart(runs[..|runs| - 1], w)
  }

  /** Ticks of `w` come at most `interval` apart, the first at most `interval` after `since`. */
  predicate TicksEvery(events: seq<Event>, w: Workload, since: int, interval: int)
    decreases |events|
  {
    |events| == 0
    || (if events[0].Tick? && events[0].w == w
        then events[0].at <= since + interval && TicksEvery(events[1..], w, events[0].at, interval)
        else TicksEvery(events[1..], w, since, interval))
  }

  /** The claim of `w`, if any, is that of its latest run. */
  ghost predicate ClaimIsLatest(x: World, w: Workload) {
    w in x.guard.inFlight ==> LastStart(x.runs, w) == Some(x.guard.inFlight[w].startedAt)
  }

  lemma {:induction false} LastStartUpdate(runs: seq<RunRecord>, i: nat, s: Status, w: Workload)
    requires i < |runs|
    ensures LastStart(runs[i := runs[i].(status := s)], w) == LastStart(runs, w)
    decreases |runs|
  {
    var n := |runs| - 1;
    var u := runs[i := runs[i].(status := s)];
    if i < n {
      assert u[..n] == runs[..n][i := runs[i].(status := s)];
      LastStartUpdate(runs[..n], i, s, w);
    } else {
      assert u[..n] == runs[..n];
    }
  }

  lemma {:induction false} LastStartAppend(runs: seq<RunRecord>, r: RunRecord, w: Workload)
    ensures LastStart(runs + [r], w) == if r.workload == w then Some(r.startedAt) else LastStart(runs, w)
  {
    assert (runs + [r])[..|runs|] == runs;
  }

  lemma {:induction false} StepLastStart(x: World, options: Options, e: Event, w: Workload)
    requires Inv(x) && EventOk(x, e)
    ensures LastStart(Step(x, options, e).runs, w) ==
            if e.Tick? && e.w == w && Ticked(x.guard, w, e.at, DeadlineFor(options, w)).1.Started?
            then Some(e.at) else LastStart(x.runs, w)
  {
    match e
    case Settle(k, at) =>
      LastStartUpdate(x.runs, k, Over, w);
    case Tick(v, at) =>
      if Ticked(x.guard, v, at, DeadlineFor(options, v)).1.Started? {
        if v in x.guard.inFlight {
          assert ClaimOk(x, v);
          LastStartUpdate(x.runs, x.guard.inFlight[v].run - 1, Displaced, w);
        }
        LastStartAppend(Drop(x, v), RunRecord(v, at, Holding), w);
      }
  }

  lemma StepClaimLatest(x: World, options: Options, e: Event, w: Workload)
    requires Inv(x) && EventOk(x, e) && ClaimIsLatest(x, w)
    ensures ClaimIsLatest(Step(x, options, e), w)
  {
    StepLastStart(x, options, e, w);
  }

  /** How far behind a tick the last start can be: less than the options, or no time at all if that is not positive. */
  function Lag(options: Options, w: Workload): int { Max(1, DeadlineFor(options, w)) }

  /** From a state whose last tick of `w`, at `sinceTick`, found a start that recent. */
  lemma {:induction false} NeverBlockedFrom(x: World, options: Options, events: seq<Event>, w: Workload, sinceTick: int, interval: int)
    requires Inv(x) && ClaimIsLatest(x, w) && RunOk(x, options, events) && TicksEvery(events, w, sinceTick, interval)
    requires 0 <= interval
    requires LastStart(x.runs, w).Some? && sinceTick - LastStart(x.runs, w).value < Lag(options, w)
    ensures forall k :: 0 <= k < |events| && events[k].Tick? && events[k].w == w ==>
      var y := Run(x, options, Prefix(x, options, events, k));
      && LastStart(y.runs, w).Some?
      && events[k].at - LastStart(y.runs, w).value < Lag(options, w) + interval
    decreases |events|
  {
    if |events| > 0 {
      var e := events[0];
      var y := Step(x, options, e);
      StepKeepsInv(x, options, e);
      StepLastStart(x, options, e, w);
      StepClaimLatest(x, options, e, w);
      var next := if e.Tick? && e.w == w then e.at else sinceTick;
      NeverBlockedFrom(y, options, events[1..], w, next, interval);
      forall k | 0 <= k < |events| && events[k].Tick? && events[k].w == w
        ensures var z := Run(x, options, Prefix(x, options, events, k));
                && LastStart(z.runs, w).Some?
                && events[k].at - LastStart(z.runs, w).value < Lag(options, w) + interval
      {
        if k > 0 {
          assert events[k] == events[1..][k - 1];
          assert Prefix(x, options, events, k)[1..] == Prefix(y, options, events[1..], k - 1);
        }
      }
    }
  }

  /** The first `k` events of a run are themselves a run. */
  ghost function Prefix(x: World, options: Options, events: seq<Event>, k: nat): (p: seq<Event>)
    requires RunOk(x, options, events) && k <= |events|
    ensures p == events[..k] && RunOk(x, options, p)
    decreases k
  {
    if k == 0 then []
    else
      var rest := Prefix(Step(x, options, events[0]), options, events[1..], k - 1);
      assert ([events[0]] + rest)[1..] == rest;
      [events[0]] + rest
  }

  lemma {:induction false} RunClaimLatest(x: World, options: Options, events: seq<Event>, w: Workload)
    requires Inv(x) && ClaimIsLatest(x, w) && RunOk(x, options, events)
    ensures ClaimIsLatest(Run(x, options, events), w)
    decreases |events|
  {
    if |events| > 0 {
      StepKeepsInv(x, options, events[0]);
      StepClaimLatest(x, options, events[0], w);
      RunClaimLatest(Step(x, options, events[0]), options, events[1..], w);
    }
  }

  /**
    Whatever hangs, and however late it settles: after any run, from any tick of a workload on, each
    further tick finds the workload's last start less than deadline + interval behind it, as long as
    its timer keeps ticking. So the gap between two starts stays below that.
  */
  lemma {:induction false} NeverBlockedLong(options: Options, before: seq<Event>, w: Workload, at: int, events: seq<Event>, interval: int)
    requires RunOk(Boot, options, before) && EventOk(Run(Boot, options, before), Tick(w, at)) && 0 <= interval
    requires RunOk(Step(Run(Boot, options, before), options, Tick(w, at)), options, events) && TicksEvery(events, w, at, interval)
    ensures var x := Step(Run(Boot, options, before), options, Tick(w, at));
      forall k :: 0 <= k < |events| && events[k].Tick? && events[k].w == w ==>
        var y := Run(x, options, Prefix(x, options, events, k));
        && LastStart(y.runs, w).Some?
        && events[k].at - LastStart(y.runs, w).value < Lag(options, w) + interval
  {
    RunKeepsInv(Boot, options, before);
    RunClaimLatest(Boot, options, before, w);
    var x := Run(Boot, options, before);
    StepKeepsInv(x, options, Tick(w, at));
    StepClaimLatest(x, options, Tick(w, at), w);
    StepLastStart(x, options, Tick(w, at), w);
    NeverBlockedFrom(Step(x, options, Tick(w, at)), options, events, w, at, interval);
  }

  lemma {:induction false} TwoTicks(options: Options, w: Workload, later: int)
    requires 0 <= later
    ensures var first, second := Tick(w, 0), Tick(w, later);
            && RunOk(Boot, options, [first, second])
            && Run(Boot, options, [first, second]) == Step(Step(Boot, options, first), options, second)
  {
    var first, second := Tick(w, 0), Tick(w, later);
    var x := Step(Boot, options, first);
    assert [first, second][1..] == [second] && [second][1..] == [];
    assert RunOk(Step(x, options, second), options, []);
    assert RunOk(x, options, [second]) && Run(x, options, [second]) == Step(x, options, second);
  }

  /** From boot: a run that hangs keeps its workload until its deadline, and the tick at the deadline replaces it. */
  lemma {:induction false} HungRunIsReplaced(options: Options, w: Workload, later: int)
    requires 0 <= later && 0 < DeadlineFor(options, w)
    ensures RunOk(Boot, options, [Tick(w, 0), Tick(w, later)])
    ensures Run(Boot, options, [Tick(w, 0), Tick(w, later)]).runs ==
            if later < DeadlineFor(options, w) then [RunRecord(w, 0, Holding)]
            else [RunRecord(w, 0, Displaced), RunRecord(w, later, Holding)]
  {
    TwoTicks(options, w, later);
    var x := Step(Boot, options, Tick(w, 0));
    assert x.runs == [RunRecord(w, 0, Holding)];
    assert x.runs[0 := RunRecord(w, 0, Displaced)] == [RunRecord(w, 0, Displaced)];
  }
}
