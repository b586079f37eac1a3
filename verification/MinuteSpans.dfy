/**
  Two minutes at once: the interleaved acquires of `MinuteProtocol` over every epoch's bucket,
  under a clock that never goes back. A caller reads the bucket before its own as it stands then,
  which may be before the callers of that minute have counted themselves.
*/
module MinuteSpans {
  import opened Sums
  import opened MinuteLimiter
  import Protocol = MinuteProtocol

  type Bucketful = Protocol.Bucketful

  datatype World = World(clock: int, minutes: map<int, Bucketful>)

  function BucketOf(w: World, m: int): Bucketful {
    if m in w.minutes then w.minutes[m] else Protocol.Empty
  }

  /** A store operation on the bucket of an epoch minute. */
  datatype Step = Step(minute: int, store: Protocol.Step)

  function TimeOf(m: int, elapsed: int): int { m * MINUTE_MS + elapsed }

  predicate Enabled(w: World, s: Step) {
    && Protocol.Enabled(BucketOf(w, s.minute), s.store)
    && (s.store.ReadPrevious? ==>
          w.clock <= TimeOf(s.minute, s.store.elapsed) && s.store.previous == BucketOf(w, s.minute - 1).counter)
  }

  function Next(w: World, caps: Caps, s: Step): World
    requires Enabled(w, s)
  {
    World(if s.store.ReadPrevious? then TimeOf(s.minute, s.store.elapsed) else w.clock,
          w.minutes[s.minute := Protocol.Next(BucketOf(w, s.minute), caps, s.store)])
  }

  function Init(clock: int): World { World(clock, map[]) }

  predicate RunOk(w: World, caps: Caps, steps: seq<Step>)
    decreases |steps|
  {
    |steps| == 0 || (Enabled(w, steps[0]) && RunOk(Next(w, caps, steps[0]), caps, steps[1..]))
  }

  function Run(w: World, caps: Caps, steps: seq<Step>): World
    requires RunOk(w, caps, steps)
    decreases |steps|
  {
    if |steps| == 0 then w else Run(Next(w, caps, steps[0]), caps, steps[1..])
  }

  // --------------------------------------------------------------- the bound

  ghost predicate Inv(w: World, caps: Caps) { forall m :: Protocol.Inv(BucketOf(w, m), caps) }

  lemma {:induction false} RunKeepsInv(w: World, caps: Caps, steps: seq<Step>)
    requires Inv(w, caps) && RunOk(w, caps, steps)
    ensures Inv(Run(w, caps, steps), caps)
    decreases |steps|
  {
    if |steps| > 0 {
      var s := steps[0];
      Protocol.StepKeepsInv(BucketOf(w, s.minute), caps, s.store);
      var after := Next(w, caps, s);
      assert forall m :: m != s.minute ==> BucketOf(after, m) == BucketOf(w, m);
      RunKeepsInv(after, caps, steps[1..]);
    }
  }

  /** Tokens of minute `m`, granted and kept, whose acquire read the clock between `a` and `b`. */
  function KeptBetween(m: int, a: int, b: int): Protocol.Token -> int {
    (t: Protocol.Token) => if t.phase == Protocol.Granted && a <= TimeOf(m, t.elapsed) <= b then 1 else 0
  }

  function KeptIn(w: World, m: int, a: int, b: int): int { Sum(BucketOf(w, m).tokens, KeptBetween(m, a, b)) }

  /** Over a span of at most a minute, which touches two epochs at most. */
  function KeptInSpan(w: World, a: int, b: int): int {
    KeptIn(w, Minute(a), a, b) + (if Minute(b) == Minute(a) then 0 else KeptIn(w, Minute(b), a, b))
  }

  lemma KeptWithinCeiling(w: World, caps: Caps, m: int, a: int, b: int)
    requires Inv(w, caps) && caps.Valid()
    ensures KeptIn(w, m, a, b) <= caps.live
  {
    var bucket := BucketOf(w, m);
    Protocol.GrantedPrefix(bucket, caps, Live, |bucket.tokens|);
    assert bucket.tokens[..|bucket.tokens|] == bucket.tokens;
    SumMonotone(bucket.tokens, KeptBetween(m, a, b), Protocol.GrantedUpTo(Live));
  }

  /**
    The sliding window under interleaving. However the store operations of concurrent acquires
    interleave, a span of at most 60 seconds holds at most two live ceilings of kept calls, and
    one if it does not cross a minute.
  */
  lemma {:induction false} SpanHoldsTwoCeilings(clock: int, caps: Caps, steps: seq<Step>, a: int, b: int)
    requires caps.Valid() && RunOk(Init(clock), caps, steps) && a <= b <= a + MINUTE_MS
    ensures KeptInSpan(Run(Init(clock), caps, steps), a, b) <= if Minute(a) == Minute(b) then caps.live else 2 * caps.live
  {
    assert forall m :: Protocol.Inv(BucketOf(Init(clock), m), caps);
    RunKeepsInv(Init(clock), caps, steps);
    KeptWithinCeiling(Run(Init(clock), caps, steps), caps, Minute(a), a, b);
    KeptWithinCeiling(Run(Init(clock), caps, steps), caps, Minute(b), a, b);
  }

  // ------------------------------------------------------------ it is reached

  /** `kept` tokens granted and `reading` callers waiting, all live, all `elapsed` ms into the minute. */
  ghost predicate Filled(b: Bucketful, elapsed: int, kept: nat, reading: nat) {
    && b.counter == kept == |b.tokens| && |b.waiting| == reading
    && (forall k :: 0 <= k < kept ==> b.tokens[k].phase == Protocol.Granted && b.tokens[k].elapsed == elapsed)
    && (forall k :: 0 <= k < reading ==> b.waiting[k] == Protocol.Token(Live, 0, elapsed, 0, Protocol.Read))
  }

  ghost predicate Elsewhere(w: World, after: World, m: int) {
    forall k :: k != m ==> BucketOf(after, k) == BucketOf(w, k)
  }

  function Reads(m: int, elapsed: int, n: nat): seq<Step> {
    if n == 0 then [] else [Step(m, Protocol.ReadPrevious(Live, 0, elapsed))] + Reads(m, elapsed, n - 1)
  }

  lemma {:induction false} RunCons(w: World, caps: Caps, s: Step, rest: seq<Step>)
    requires Enabled(w, s) && RunOk(Next(w, caps, s), caps, rest)
    ensures RunOk(w, caps, [s] + rest) && Run(w, caps, [s] + rest) == Run(Next(w, caps, s), caps, rest)
  {
    assert ([s] + rest)[1..] == rest;
  }

  lemma {:induction false} AllRead(w: World, caps: Caps, m: int, elapsed: int, reading: nat, n: nat)
    requires 0 <= elapsed < MINUTE_MS && w.clock <= TimeOf(m, elapsed) && BucketOf(w, m - 1).counter == 0
    requires Filled(BucketOf(w, m), elapsed, 0, reading)
    ensures RunOk(w, caps, Reads(m, elapsed, n))
    ensures var after := Run(w, caps, Reads(m, elapsed, n));
            Filled(BucketOf(after, m), elapsed, 0, reading + n) && Elsewhere(w, after, m) && after.clock <= TimeOf(m, elapsed)
    decreases n
  {
    if n > 0 {
      var s := Step(m, Protocol.ReadPrevious(Live, 0, elapsed));
      var next := Next(w, caps, s);
      AllRead(next, caps, m, elapsed, reading + 1, n - 1);
      RunCons(w, caps, s, Reads(m, elapsed, n - 1));
    }
  }

  /** The waiting callers count themselves and decide, one after the other. */
  function Counts(m: int, kept: nat, n: nat): seq<Step>
    decreases n
  {
    if n == 0 then []
    else [Step(m, Protocol.Increment(0))] + ([Step(m, Protocol.Decide(kept))] + Counts(m, kept + 1, n - 1))
  }

  lemma OneCounted(b: Bucketful, caps: Caps, elapsed: int, kept: nat, reading: nat)
    requires Filled(b, elapsed, kept, reading) && 0 < reading && kept < caps.live
    ensures var counted := Protocol.Next(b, caps, Protocol.Increment(0));
            && Protocol.Enabled(counted, Protocol.Decide(kept))
            && Filled(Protocol.Next(counted, caps, Protocol.Decide(kept)), elapsed, kept + 1, reading - 1)
  {
    var counted := Protocol.Next(b, caps, Protocol.Increment(0));
    assert counted.tokens[kept] == Protocol.Token(Live, 0, elapsed, kept + 1, Protocol.Counted);
  }

  lemma {:induction false} AllCounted(w: World, caps: Caps, m: int, elapsed: int, kept: nat, n: nat)
    requires Filled(BucketOf(w, m), elapsed, kept, n) && kept + n <= caps.live
    ensures RunOk(w, caps, Counts(m, kept, n))
    ensures var after := Run(w, caps, Counts(m, kept, n));
            Filled(BucketOf(after, m), elapsed, kept + n, 0) && Elsewhere(w, after, m)
    decreases n
  {
    if n > 0 {
      OneCounted(BucketOf(w, m), caps, elapsed, kept, n);
      var inc, dec := Step(m, Protocol.Increment(0)), Step(m, Protocol.Decide(kept));
      var counted := Next(w, caps, inc);
      var decided := Next(counted, caps, dec);
      AllCounted(decided, caps, m, elapsed, kept + 1, n - 1);
      RunCons(counted, caps, dec, Counts(m, kept + 1, n - 1));
      RunCons(w, caps, inc, [dec] + Counts(m, kept + 1, n - 1));
    }
  }

  lemma {:induction false} RunAppend(w: World, caps: Caps, xs: seq<Step>, ys: seq<Step>)
    requires RunOk(w, caps, xs) && RunOk(Run(w, caps, xs), caps, ys)
    ensures RunOk(w, caps, xs + ys) && Run(w, caps, xs + ys) == Run(Run(w, caps, xs), caps, ys)
    decreases |xs|
  {
    if |xs| == 0 {
      assert xs + ys == ys;
    } else {
      assert (xs + ys)[1..] == xs[1..] + ys;
      RunAppend(Next(w, caps, xs[0]), caps, xs[1..], ys);
    }
  }

  lemma {:induction false} SumOfOnes<T>(s: seq<T>, f: T -> int)
    requires forall k :: 0 <= k < |s| ==> f(s[k]) == 1
    ensures Sum(s, f) == |s|
  {
    if |s| > 0 {
      SumOfOnes(s[..|s| - 1], f);
    }
  }

  lemma FilledIsKept(w: World, m: int, elapsed: int, kept: nat, a: int, b: int)
    requires Filled(BucketOf(w, m), elapsed, kept, 0) && a <= TimeOf(m, elapsed) <= b
    ensures KeptIn(w, m, a, b) == kept
  {
    SumOfOnes(BucketOf(w, m).tokens, KeptBetween(m, a, b));
  }

  /** Both minutes' callers have read, the later ones while the old bucket was still empty. */
  lemma BothRead(caps: Caps, last: int, n: nat) returns (steps: seq<Step>)
    requires 0 <= last < MINUTE_MS
    ensures RunOk(Init(0), caps, steps)
    ensures var w := Run(Init(0), caps, steps); Filled(BucketOf(w, 0), last, 0, n) && Filled(BucketOf(w, 1), 0, 0, n)
  {
    AllRead(Init(0), caps, 0, last, 0, n);
    var w := Run(Init(0), caps, Reads(0, last, n));
    AllRead(w, caps, 1, 0, 0, n);
    RunAppend(Init(0), caps, Reads(0, last, n), Reads(1, 0, n));
    steps := Reads(0, last, n) + Reads(1, 0, n);
  }

  lemma BothCounted(w: World, caps: Caps, last: int, n: nat) returns (steps: seq<Step>)
    requires Filled(BucketOf(w, 0), last, 0, n) && Filled(BucketOf(w, 1), 0, 0, n) && n <= caps.live
    ensures RunOk(w, caps, steps)
    ensures var after := Run(w, caps, steps); Filled(BucketOf(after, 0), last, n, 0) && Filled(BucketOf(after, 1), 0, n, 0)
  {
    AllCounted(w, caps, 0, last, 0, n);
    var first := Run(w, caps, Counts(0, 0, n));
    AllCounted(first, caps, 1, 0, 0, n);
    RunAppend(w, caps, Counts(0, 0, n), Counts(1, 0, n));
    steps := Counts(0, 0, n) + Counts(1, 0, n);
  }

  /**
    And two ceilings are reached within one millisecond: if the callers of a new minute read the
    old bucket before the callers of the old minute have counted themselves, both minutes are filled.
    So the bound of uninterrupted acquires, C * (1 + d / 60000), fails for every ceiling.
  */
  lemma TwoCeilingsInAMillisecond(caps: Caps) returns (steps: seq<Step>)
    requires caps.Valid()
    ensures RunOk(Init(0), caps, steps)
    ensures var kept := KeptInSpan(Run(Init(0), caps, steps), MINUTE_MS - 1, MINUTE_MS);
            kept == 2 * caps.live && caps.live * (MINUTE_MS + 1) < kept * MINUTE_MS
  {
    var last := MINUTE_MS - 1;
    var readings := BothRead(caps, last, caps.live);
    var counts := BothCounted(Run(Init(0), caps, readings), caps, last, caps.live);
    RunAppend(Init(0), caps, readings, counts);
    steps := readings + counts;
    var after := Run(Init(0), caps, steps);
    FilledIsKept(after, 0, last, caps.live, last, MINUTE_MS);
    FilledIsKept(after, 1, 0, caps.live, last, MINUTE_MS);
  }
}
