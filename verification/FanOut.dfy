/**
  Bounded fan-out (`mapWithConcurrency` in src/worker/ingestion.ts): workers share a cursor,
  claim the next index without yielding, and run its item; a throw stays with its item.
*/
module FanOut {
  import opened Common
  import opened Sums

  /** Idle: between items, about to look at the cursor. */
  datatype Worker = Idle | Running(index: nat) | Exited

  datatype Finished = Finished(index: nat, threw: bool)

  /** `defined[i]` is false where the items array has a hole, which a worker steps over. */
  datatype Pool = Pool(defined: seq<bool>, cursor: nat, workers: seq<Worker>, claimed: seq<nat>, finished: seq<Finished>)

  datatype Step = Claim(worker: nat) | Finish(worker: nat, threw: bool) | Exit(worker: nat)

  function WorkerCount(limit: int, items: nat): nat { Max(1, Min(limit, items)) }

  function Start(defined: seq<bool>, limit: int): Pool {
    Pool(defined, 0,
         if |defined| == 0 then [] else seq(WorkerCount(limit, |defined|), i => Idle), [], [])
  }

  predicate Enabled(p: Pool, s: Step) {
    match s
    case Claim(w) => w < |p.workers| && p.workers[w] == Idle && p.cursor < |p.defined|
    case Finish(w, _) => w < |p.workers| && p.workers[w].Running?
    case Exit(w) => w < |p.workers| && p.workers[w] == Idle && |p.defined| <= p.cursor
  }

  function Next(p: Pool, s: Step): Pool
    requires Enabled(p, s)
  {
    match s
    case Claim(w) =>
      p.(cursor := p.cursor + 1, claimed := p.claimed + [p.cursor],
         workers := p.workers[w := if p.defined[p.cursor] then Running(p.cursor) else Idle])
    case Finish(w, threw) =>
      p.(workers := p.workers[w := Idle], finished := p.finished + [Finished(p.workers[w].index, threw)])
    case Exit(w) => p.(workers := p.workers[w := Exited])
  }

  predicate RunOk(p: Pool, steps: seq<Step>)
    decreases |steps|
  {
    |steps| == 0 || (Enabled(p, steps[0]) && RunOk(Next(p, steps[0]), steps[1..]))
  }

  function Run(p: Pool, steps: seq<Step>): Pool
    requires RunOk(p, steps)
    decreases |steps|
  {
    if |steps| == 0 then p else Run(Next(p, steps[0]), steps[1..])
  }

  // ------------------------------------------------------------------ counts

  function RunningAt(i: int): Worker -> int { (w: Worker) => if w.Running? && w.index == i then 1 else 0 }

  function FinishedAt(i: int): Finished -> int { (f: Finished) => if f.index == i then 1 else 0 }

  function IsRunning(): Worker -> int { (w: Worker) => if w.Running? then 1 else 0 }

  /** Item `i` is running or finished once if it exists and has been claimed, and otherwise not at all. */
  ghost predicate RunsOnce(p: Pool, i: int)
    requires p.cursor <= |p.defined|
  {
    Sum(p.workers, RunningAt(i)) + Sum(p.finished, FinishedAt(i)) == if 0 <= i < p.cursor && p.defined[i] then 1 else 0
  }

  /** Every claimed item that exists is running or finished, exactly once; nothing else is. */
  ghost predicate Inv(p: Pool) {
    && p.cursor <= |p.defined|
    && |p.claimed| == p.cursor
    && (forall i :: 0 <= i < p.cursor ==> p.claimed[i] == i)
    && (forall i :: RunsOnce(p, i))
    && (forall w :: 0 <= w < |p.workers| && p.workers[w].Exited? ==> p.cursor == |p.defined|)
  }

  lemma StepKeepsItem(p: Pool, s: Step, i: int)
    requires p.cursor <= |p.defined| && RunsOnce(p, i) && Enabled(p, s)
    ensures RunsOnce(Next(p, s), i)
  {
    match s
    case Claim(w) => SumUpdate(p.workers, w, Next(p, s).workers[w], RunningAt(i));
    case Exit(w) => SumUpdate(p.workers, w, Exited, RunningAt(i));
    case Finish(w, threw) =>
      SumUpdate(p.workers, w, Idle, RunningAt(i));
      SumAppend(p.finished, Finished(p.workers[w].index, threw), FinishedAt(i));
  }

  lemma StepKeepsInv(p: Pool, s: Step)
    requires Inv(p) && Enabled(p, s)
    ensures Inv(Next(p, s))
  {
    forall i
      ensures RunsOnce(Next(p, s), i)
    {
      assert RunsOnce(p, i);
      StepKeepsItem(p, s, i);
    }
  }

  lemma {:induction false} RunKeepsInv(p: Pool, steps: seq<Step>)
    requires Inv(p) && RunOk(p, steps)
    ensures Inv(Run(p, steps)) && |Run(p, steps).workers| == |p.workers| && Run(p, steps).defined == p.defined
    decreases |steps|
  {
    if |steps| > 0 {
      StepKeepsInv(p, steps[0]);
      RunKeepsInv(Next(p, steps[0]), steps[1..]);
    }
  }

  lemma StartInv(defined: seq<bool>, limit: int)
    ensures Inv(Start(defined, limit))
  {
    var p := Start(defined, limit);
    forall i
      ensures Sum(p.workers, RunningAt(i)) == 0
    {
      SumZero(p.workers, RunningAt(i));
    }
  }

  lemma {:induction false} AtMostAll(ws: seq<Worker>)
    ensures Sum(ws, IsRunning()) <= |ws|
  {
    if |ws| > 0 {
      AtMostAll(ws[..|ws| - 1]);
    }
  }

  // ----------------------------------------------------------- main results

  /** `Promise.all` resolves once every worker has left its loop. */
  predicate Returned(p: Pool) {
    forall w :: 0 <= w < |p.workers| ==> p.workers[w].Exited?
  }

  /**
    In every interleaving: indices are claimed once each and in order, never more than `limit`
    items (at least one) run together, and each item has run at most once so far. When the
    call returns, every item that exists has run exactly once, thrown or not.
  */
  lemma {:induction false} FanOutIsExact(defined: seq<bool>, limit: int, steps: seq<Step>, i: nat)
    requires RunOk(Start(defined, limit), steps) && i < |defined|
    ensures var p := Run(Start(defined, limit), steps);
            && p.claimed == seq(p.cursor, k => k)
            && Sum(p.workers, IsRunning()) <= |p.workers| <= Max(1, limit)
            && Sum(p.workers, RunningAt(i)) + Sum(p.finished, FinishedAt(i)) <= 1
            && (Returned(p) ==> Sum(p.finished, FinishedAt(i)) == if defined[i] then 1 else 0)
  {
    StartInv(defined, limit);
    RunKeepsInv(Start(defined, limit), steps);
    var p := Run(Start(defined, limit), steps);
    AtMostAll(p.workers);
    assert RunsOnce(p, i);
    SumNonNegative(p.workers, RunningAt(i));
    SumNonNegative(p.finished, FinishedAt(i));
    if Returned(p) {
      assert p.workers[0].Exited?;
      SumZero(p.workers, RunningAt(i));
    }
  }

  /** What is still to do: unclaimed items, items in hand, workers not yet gone. */
  function Remaining(p: Pool): int {
    2 * (|p.defined| - p.cursor) + Sum(p.workers, Left())
  }

  function Left(): Worker -> int {
    (w: Worker) => match w case Idle => 1 case Running(_) => 2 case Exited => 0
  }

  lemma StepProgresses(p: Pool, s: Step)
    requires Inv(p) && Enabled(p, s)
    ensures 0 <= Remaining(Next(p, s)) < Remaining(p)
  {
    SumUpdate(p.workers, s.worker, Next(p, s).workers[s.worker], Left());
    SumNonNegative(Next(p, s).workers, Left());
  }

  lemma SomeoneCanMove(p: Pool)
    requires !Returned(p)
    ensures exists s :: Enabled(p, s)
  {
    var w :| 0 <= w < |p.workers| && !p.workers[w].Exited?;
    assert Enabled(p, Claim(w)) || Enabled(p, Finish(w, false)) || Enabled(p, Exit(w));
  }

  /** Nothing can wedge the pool: until it returns some worker can move, and every move is progress. */
  lemma {:induction false} FanOutProgresses(defined: seq<bool>, limit: int, steps: seq<Step>)
    requires RunOk(Start(defined, limit), steps)
    ensures var p := Run(Start(defined, limit), steps);
            && (Returned(p) <==> forall s: Step :: !Enabled(p, s))
            && (forall s: Step :: Enabled(p, s) ==> 0 <= Remaining(Next(p, s)) < Remaining(p))
  {
    StartInv(defined, limit);
    RunKeepsInv(Start(defined, limit), steps);
    var p := Run(Start(defined, limit), steps);
    if !Returned(p) {
      SomeoneCanMove(p);
    }
    forall s: Step | Enabled(p, s)
      ensures 0 <= Remaining(Next(p, s)) < Remaining(p)
    {
      StepProgresses(p, s);
    }
  }

  lemma CompletesFrom(p: Pool) returns (steps: seq<Step>)
    requires Inv(p)
    ensures RunOk(p, steps) && Returned(Run(p, steps))
    decreases Remaining(p)
  {
    steps := [];
    if !Returned(p) {
      SomeoneCanMove(p);
      var s :| Enabled(p, s);
      StepKeepsInv(p, s);
      StepProgresses(p, s);
      SumNonNegative(p.workers, Left());
      var rest := CompletesFrom(Next(p, s));
      steps := [s] + rest;
      assert steps[1..] == rest;
    }
  }

  /**
    No items start no worker, others as many as the limit or the items allow, and one at least. From
    any moment of any run the call can return, and has then run every item that exists once.
  */
  lemma FanOutCompletes(defined: seq<bool>, limit: int, steps: seq<Step>) returns (more: seq<Step>)
    requires RunOk(Start(defined, limit), steps)
    ensures |Start(defined, limit).workers| == if |defined| == 0 then 0 else Max(1, Min(limit, |defined|))
    ensures var p := Run(Start(defined, limit), steps);
            && RunOk(p, more) && Returned(Run(p, more))
            && forall i: nat :: i < |defined| ==> Sum(Run(p, more).finished, FinishedAt(i)) == if defined[i] then 1 else 0
  {
    StartInv(defined, limit);
    RunKeepsInv(Start(defined, limit), steps);
    var p := Run(Start(defined, limit), steps);
    more := CompletesFrom(p);
    RunKeepsInv(p, more);
    var q := Run(p, more);
    forall i: nat | i < |defined|
      ensures Sum(q.finished, FinishedAt(i)) == if defined[i] then 1 else 0
    {
      assert RunsOnce(q, i);
      assert q.workers[0].Exited?;
      SumZero(q.workers, RunningAt(i));
    }
  }
}
