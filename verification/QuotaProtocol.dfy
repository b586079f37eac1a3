/**
  Many callers of `reserve` at once, in one UTC window. Each `await` of the store is a step
  of its own: a caller counts its cost, later decides on the total it was handed, and if it
  was refused gives the cost back later still. Any interleaving is allowed in between.
*/
module QuotaProtocol {
  import opened Common
  import opened Sums
  import opened MinuteLimiter
  import opened Quota

  /** Counted: incremented, not decided. Refused: over a cap, refund not written yet. */
  datatype Phase = Counted | Refused | Granted | Closed

  datatype Reservation = Reservation(cost: int, priority: Option<Priority>, total: int, phase: Phase)

  /** Reservations in the order their increments reached the store. */
  datatype Ledger = Ledger(counter: int, callers: seq<Reservation>, remoteUsed: int)

  datatype Step =
    | Increment(cost: int, priority: Option<Priority>)
    | Decide(caller: nat)
    | GiveBackRefused(caller: nat)
    | RefundGranted(caller: nat)
    | ObserveRemote(used: int)

  predicate Enabled(l: Ledger, s: Step) {
    match s
    case Increment(cost, _) => 0 < cost
    case Decide(i) => i < |l.callers| && l.callers[i].phase == Counted
    case GiveBackRefused(i) => i < |l.callers| && l.callers[i].phase == Refused
    case RefundGranted(i) => i < |l.callers| && l.callers[i].phase == Granted
    case ObserveRemote(_) => true
  }

  function SetPhase(l: Ledger, i: nat, phase: Phase): Ledger
    requires i < |l.callers|
  {
    l.(callers := l.callers[i := l.callers[i].(phase := phase)])
  }

  function Next(l: Ledger, c: Config, s: Step): Ledger
    requires Enabled(l, s)
  {
    match s
    case Increment(cost, p) =>
      var total := Max0(l.counter + cost);
      l.(counter := total, callers := l.callers + [Reservation(cost, p, total, Counted)])
    case Decide(i) =>
      var r := l.callers[i];
      var calls := if c.source == ProviderHeader then Max(r.total, l.remoteUsed) else r.total;
      SetPhase(l, i, if CapPassed(c, r.priority, calls).Some? then Refused else Granted)
    case GiveBackRefused(i) =>
      SetPhase(l, i, Closed).(counter := Max0(l.counter - l.callers[i].cost))
    case RefundGranted(i) =>
      SetPhase(l, i, Closed).(counter := Max0(l.counter - l.callers[i].cost))
    case ObserveRemote(used) =>
      l.(remoteUsed := used)
  }

  const Empty := Ledger(0, [], 0)

  predicate RunOk(l: Ledger, c: Config, steps: seq<Step>)
    decreases |steps|
  {
    |steps| == 0 || (Enabled(l, steps[0]) && RunOk(Next(l, c, steps[0]), c, steps[1..]))
  }

  function Run(l: Ledger, c: Config, steps: seq<Step>): Ledger
    requires RunOk(l, c, steps)
    decreases |steps|
  {
    if |steps| == 0 then l else Run(Next(l, c, steps[0]), c, steps[1..])
  }

  // ------------------------------------------------------------------ sums

  function OpenCost(): Reservation -> int {
    (r: Reservation) => if r.phase != Closed then r.cost else 0
  }

  function GrantedCost(): Reservation -> int {
    (r: Reservation) => if r.phase == Granted then r.cost else 0
  }

  function GrantedBackgroundCost(): Reservation -> int {
    (r: Reservation) => if r.phase == Granted && r.priority == Some(Background) then r.cost else 0
  }

  /** What a caller was handed covers itself and everything open before it. */
  ghost predicate Covered(callers: seq<Reservation>, i: nat)
    requires i < |callers|
  {
    Sum(callers[..i + 1], OpenCost()) <= callers[i].total
  }

  ghost predicate Inv(l: Ledger, c: Config) {
    && l.counter == Sum(l.callers, OpenCost())
    && (forall i :: 0 <= i < |l.callers| ==> 0 < l.callers[i].cost)
    && (forall i :: 0 <= i < |l.callers| ==> Covered(l.callers, i))
    && (forall i :: 0 <= i < |l.callers| && l.callers[i].phase == Granted ==>
          CapPassed(c, l.callers[i].priority, l.callers[i].total) == None)
  }

  /** Closing or deciding a reservation never raises what is open in any prefix. */
  lemma PrefixAfterSetPhase(l: Ledger, i: nat, phase: Phase, k: nat)
    requires i < |l.callers| && k < |l.callers| && l.callers[i].phase != Closed && 0 < l.callers[i].cost
    ensures Sum(SetPhase(l, i, phase).callers[..k + 1], OpenCost()) <= Sum(l.callers[..k + 1], OpenCost())
  {
    var r := l.callers[i].(phase := phase);
    if i <= k {
      assert l.callers[i := r][..k + 1] == l.callers[..k + 1][i := r];
      SumUpdate(l.callers[..k + 1], i, r, OpenCost());
    } else {
      assert l.callers[i := r][..k + 1] == l.callers[..k + 1];
    }
  }

  lemma OpenCoversMember(l: Ledger, c: Config, i: nat)
    requires Inv(l, c) && i < |l.callers| && l.callers[i].phase != Closed
    ensures l.callers[i].cost <= l.counter
  {
    SumAtLeastMember(l.callers, i, OpenCost());
  }

  lemma SetPhaseKeepsInv(l: Ledger, c: Config, i: nat, phase: Phase)
    requires Inv(l, c) && i < |l.callers| && l.callers[i].phase != Closed
    requires phase == Granted ==> CapPassed(c, l.callers[i].priority, l.callers[i].total) == None
    ensures var cost := if phase == Closed then l.callers[i].cost else 0;
            Inv(SetPhase(l, i, phase).(counter := l.counter - cost), c)
  {
    SumUpdate(l.callers, i, l.callers[i].(phase := phase), OpenCost());
    forall k | 0 <= k < |l.callers|
      ensures Covered(SetPhase(l, i, phase).callers, k)
    {
      assert Covered(l.callers, k);
      PrefixAfterSetPhase(l, i, phase, k);
    }
  }

  lemma PrefixAfterIncrement(callers: seq<Reservation>, r: Reservation, k: nat)
    requires k <= |callers|
    ensures (callers + [r])[..k + 1] == if k < |callers| then callers[..k + 1] else callers + [r]
  {}

  /** One more reservation counted, with a total that covers it. */
  lemma CountedKeepsInv(l: Ledger, c: Config, r: Reservation)
    requires Inv(l, c) && 0 < r.cost && r.phase == Counted && r.total == l.counter + r.cost
    ensures Inv(l.(counter := l.counter + r.cost, callers := l.callers + [r]), c)
  {
    var callers := l.callers + [r];
    SumAppend(l.callers, r, OpenCost());
    forall k | 0 <= k < |callers|
      ensures Covered(callers, k)
    {
      PrefixAfterIncrement(l.callers, r, k);
      assert k < |l.callers| ==> Covered(l.callers, k);
    }
  }

  lemma IncrementKeepsInv(l: Ledger, c: Config, cost: int, p: Option<Priority>)
    requires Inv(l, c) && 0 < cost
    ensures Inv(Next(l, c, Increment(cost, p)), c)
  {
    SumNonNegative(l.callers, OpenCost());
    var r := Reservation(cost, p, l.counter + cost, Counted);
    assert Next(l, c, Increment(cost, p)) == l.(counter := l.counter + cost, callers := l.callers + [r]);
    CountedKeepsInv(l, c, r);
  }

  lemma StepKeepsInv(l: Ledger, c: Config, s: Step)
    requires Inv(l, c) && Enabled(l, s)
    ensures Inv(Next(l, c, s), c)
  {
    match s
    case Increment(cost, p) => IncrementKeepsInv(l, c, cost, p);
    case Decide(i) =>
      var l' := Next(l, c, s);
      SetPhaseKeepsInv(l, c, i, l'.callers[i].phase);
    case GiveBackRefused(i) =>
      OpenCoversMember(l, c, i);
      SetPhaseKeepsInv(l, c, i, Closed);
    case RefundGranted(i) =>
      OpenCoversMember(l, c, i);
      SetPhaseKeepsInv(l, c, i, Closed);
    case ObserveRemote(_) =>
  }

  lemma {:induction false} RunKeepsInv(l: Ledger, c: Config, steps: seq<Step>)
    requires Inv(l, c) && RunOk(l, c, steps)
    ensures Inv(Run(l, c, steps), c)
    decreases |steps|
  {
    if |steps| > 0 {
      StepKeepsInv(l, c, steps[0]);
      RunKeepsInv(Next(l, c, steps[0]), c, steps[1..]);
    }
  }

  // ------------------------------------------------------------ cap safety

  /** The last granted caller's own total bounds everything granted before it. */
  lemma {:induction false} GrantedWithin(l: Ledger, c: Config, n: nat, f: Reservation -> int, cap: int)
    requires Inv(l, c) && n <= |l.callers| && 0 <= cap
    requires forall r: Reservation :: 0 < r.cost ==> 0 <= f(r) <= OpenCost()(r)
    requires forall i :: 0 <= i < |l.callers| && f(l.callers[i]) != 0 ==> l.callers[i].total <= cap
    ensures Sum(l.callers[..n], f) <= cap
  {
    if n > 0 {
      assert l.callers[..n][..n - 1] == l.callers[..n - 1];
      if f(l.callers[n - 1]) == 0 {
        GrantedWithin(l, c, n - 1, f, cap);
      } else {
        SumMonotone(l.callers[..n], f, OpenCost());
        assert Covered(l.callers, n - 1);
      }
    }
  }

  /**
    Cap safety. In every interleaving the cost granted and not given back never exceeds the
    hard cap, and its background share never exceeds the background cap.
  */
  lemma {:induction false} CapSafety(c: Config, steps: seq<Step>)
    requires ValidConfig(c) && RunOk(Empty, c, steps)
    ensures var l := Run(Empty, c, steps);
            && Sum(l.callers, GrantedCost()) <= c.hardCap
            && Sum(l.callers, GrantedBackgroundCost()) <= c.backgroundDailyCap
  {
    RunKeepsInv(Empty, c, steps);
    var l := Run(Empty, c, steps);
    assert l.callers[..|l.callers|] == l.callers;
    GrantedWithin(l, c, |l.callers|, GrantedCost(), c.hardCap);
    GrantedWithin(l, c, |l.callers|, GrantedBackgroundCost(), c.backgroundDailyCap);
  }

  predicate Quiet(l: Ledger) {
    forall i :: 0 <= i < |l.callers| ==> l.callers[i].phase == Granted || l.callers[i].phase == Closed
  }

  /** With no caller mid-step the counter is exactly what was granted and not refunded. */
  lemma {:induction false} QuietCounterIsExact(c: Config, steps: seq<Step>)
    requires RunOk(Empty, c, steps) && Quiet(Run(Empty, c, steps))
    ensures var l := Run(Empty, c, steps); l.counter == Sum(l.callers, GrantedCost())
  {
    RunKeepsInv(Empty, c, steps);
    var l := Run(Empty, c, steps);
    SumMonotone(l.callers, GrantedCost(), OpenCost());
    SumMonotone(l.callers, OpenCost(), GrantedCost());
  }

  lemma {:induction false} Prepend(l: Ledger, c: Config, s: Step, rest: seq<Step>)
    requires Enabled(l, s) && RunOk(Next(l, c, s), c, rest)
    ensures RunOk(l, c, [s] + rest) && Run(l, c, [s] + rest) == Run(Next(l, c, s), c, rest)
  {
    assert ([s] + rest)[1..] == rest;
  }

  /** The run of a lone caller's two or three steps is the tracker's `Reserve`. */
  lemma LoneCallerIsReserve(c: Config, remoteUsed: int, counter: int, cost: int, p: Option<Priority>, now: int) returns (steps: seq<Step>)
    requires 0 <= counter && 0 < cost && 0 <= remoteUsed
    ensures var w := WindowFor(now);
            var remote := Some(Remote(w, remoteUsed, 1));
            var (after, r) := Reserved(c, remote, map[w := counter], cost, p, now);
            && RunOk(Ledger(counter, [], remoteUsed), c, steps)
            && var end := Run(Ledger(counter, [], remoteUsed), c, steps);
            && end.counter == Count(after, w)
            && |end.callers| == 1 && end.callers[0].phase == if r.allowed then Granted else Closed
  {
    var start := Ledger(counter, [], remoteUsed);
    var counted := Next(start, c, Increment(cost, p));
    var decided := Next(counted, c, Decide(0));
    var rest := if decided.callers[0].phase == Refused then [GiveBackRefused(0)] + [] else [];
    if decided.callers[0].phase == Refused {
      Prepend(decided, c, GiveBackRefused(0), []);
    }
    Prepend(counted, c, Decide(0), rest);
    Prepend(start, c, Increment(cost, p), [Decide(0)] + rest);
    steps := [Increment(cost, p)] + ([Decide(0)] + rest);
  }
}
