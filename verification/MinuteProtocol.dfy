/**
  Many calls of `tryAcquire` (src/worker/minute-limiter.ts) at once on the bucket of one epoch
  minute. Each `await` of the store is a step of its own: a caller reads the previous bucket,
  later increments this one, later still decides on the total it was handed, and if it was over
  its ceiling gives the token back at some other time. Any interleaving is allowed in between.
*/
module MinuteProtocol {
  import opened Common
  import opened Sums
  import opened MinuteLimiter

  /** Read: knows the previous bucket. Counted: incremented. Refused: give-back not written yet. */
  datatype Phase = Read | Counted | Refused | Granted | Closed

  datatype Token = Token(priority: Priority, previous: nat, elapsed: int, total: int, phase: Phase)

  /** Tokens in the order their increments reached the store; `waiting` have only read so far. */
  datatype Bucketful = Bucketful(counter: int, waiting: seq<Token>, tokens: seq<Token>)

  datatype Step =
    | ReadPrevious(priority: Priority, previous: nat, elapsed: int)
    | Increment(w: nat)
    | Decide(i: nat)
    | GiveBack(i: nat)
    | Release(i: nat)

  predicate Enabled(b: Bucketful, s: Step) {
    match s
    case ReadPrevious(_, _, elapsed) => 0 <= elapsed < MINUTE_MS
    case Increment(w) => w < |b.waiting|
    case Decide(i) => i < |b.tokens| && b.tokens[i].phase == Counted
    case GiveBack(i) => i < |b.tokens| && b.tokens[i].phase == Refused
    case Release(i) => i < |b.tokens| && b.tokens[i].phase == Granted
  }

  predicate Over(t: Token, caps: Caps) { Weighted(t.previous, t.total, t.elapsed) > caps.Of(t.priority) * MINUTE_MS }

  function Entered(t: Token, total: int): Token { t.(total := total, phase := Counted) }

  function Next(b: Bucketful, caps: Caps, s: Step): Bucketful
    requires Enabled(b, s)
  {
    match s
    case ReadPrevious(p, previous, elapsed) => b.(waiting := b.waiting + [Token(p, previous, elapsed, 0, Read)])
    case Increment(w) =>
      var total := Max0(b.counter + 1);
      Bucketful(total, b.waiting[..w] + b.waiting[w + 1..], b.tokens + [Entered(b.waiting[w], total)])
    case Decide(i) => b.(tokens := b.tokens[i := b.tokens[i].(phase := if Over(b.tokens[i], caps) then Refused else Granted)])
    case GiveBack(i) => b.(counter := Max0(b.counter - 1), tokens := b.tokens[i := b.tokens[i].(phase := Closed)])
    case Release(i) => b.(counter := Max0(b.counter - 1), tokens := b.tokens[i := b.tokens[i].(phase := Closed)])
  }

  const Empty := Bucketful(0, [], [])

  predicate RunOk(b: Bucketful, caps: Caps, steps: seq<Step>)
    decreases |steps|
  {
    |steps| == 0 || (Enabled(b, steps[0]) && RunOk(Next(b, caps, steps[0]), caps, steps[1..]))
  }

  function Run(b: Bucketful, caps: Caps, steps: seq<Step>): Bucketful
    requires RunOk(b, caps, steps)
    decreases |steps|
  {
    if |steps| == 0 then b else Run(Next(b, caps, steps[0]), caps, steps[1..])
  }

  // ------------------------------------------------------------------- counts

  function IsOpen(): Token -> int { (t: Token) => if t.phase != Closed then 1 else 0 }

  /** Tokens granted to class `p` or a class below it. */
  function GrantedUpTo(p: Priority): Token -> int {
    (t: Token) => if t.phase == Granted && Rank(t.priority) <= Rank(p) then 1 else 0
  }

  function Rank(p: Priority): nat {
    match p
    case Background => 0
    case NearLive => 1
    case Live => 2
  }

  /** What a caller was handed covers itself and every open token before it. */
  ghost predicate Covered(tokens: seq<Token>, k: nat)
    requires k < |tokens|
  {
    Sum(tokens[..k + 1], IsOpen()) <= tokens[k].total
  }

  ghost predicate TokenOk(t: Token, caps: Caps) {
    0 <= t.elapsed < MINUTE_MS && (t.phase == Granted ==> !Over(t, caps))
  }

  ghost predicate Inv(b: Bucketful, caps: Caps) {
    && b.counter == Sum(b.tokens, IsOpen())
    && (forall w :: 0 <= w < |b.waiting| ==> 0 <= b.waiting[w].elapsed < MINUTE_MS)
    && (forall k :: 0 <= k < |b.tokens| ==> TokenOk(b.tokens[k], caps) && Covered(b.tokens, k))
  }

  lemma CoveredAfterUpdate(tokens: seq<Token>, i: nat, t: Token, k: nat)
    requires i < |tokens| && k < |tokens| && Covered(tokens, k)
    requires t.total == tokens[i].total && IsOpen()(t) <= IsOpen()(tokens[i])
    ensures Covered(tokens[i := t], k)
  {
    if i <= k {
      assert tokens[i := t][..k + 1] == tokens[..k + 1][i := t];
      SumUpdate(tokens[..k + 1], i, t, IsOpen());
    } else {
      assert tokens[i := t][..k + 1] == tokens[..k + 1];
    }
  }

  lemma UpdateKeepsInv(b: Bucketful, caps: Caps, i: nat, t: Token, counter: int)
    requires Inv(b, caps) && i < |b.tokens| && TokenOk(t, caps)
    requires t.total == b.tokens[i].total && IsOpen()(t) <= IsOpen()(b.tokens[i])
    requires counter == b.counter - IsOpen()(b.tokens[i]) + IsOpen()(t)
    ensures Inv(b.(counter := counter, tokens := b.tokens[i := t]), caps)
  {
    SumUpdate(b.tokens, i, t, IsOpen());
    var after := b.tokens[i := t];
    forall k | 0 <= k < |after|
      ensures Covered(after, k)
    {
      CoveredAfterUpdate(b.tokens, i, t, k);
    }
  }

  lemma {:induction false} CoveredAfterAppend(tokens: seq<Token>, t: Token, k: nat)
    requires k <= |tokens|
    requires if k < |tokens| then Covered(tokens, k) else Sum(tokens, IsOpen()) + IsOpen()(t) <= t.total
    ensures Covered(tokens + [t], k)
  {
    if k < |tokens| {
      assert (tokens + [t])[..k + 1] == tokens[..k + 1];
    } else {
      assert (tokens + [t])[..k + 1] == tokens + [t];
      SumAppend(tokens, t, IsOpen());
    }
  }

  lemma {:induction false} AppendKeepsTokens(tokens: seq<Token>, t: Token, caps: Caps)
    requires forall k :: 0 <= k < |tokens| ==> TokenOk(tokens[k], caps) && Covered(tokens, k)
    requires TokenOk(t, caps) && Sum(tokens, IsOpen()) + IsOpen()(t) <= t.total
    ensures var after := tokens + [t]; forall k :: 0 <= k < |after| ==> TokenOk(after[k], caps) && Covered(after, k)
  {
    var after := tokens + [t];
    forall k | 0 <= k < |after|
      ensures TokenOk(after[k], caps) && Covered(after, k)
    {
      CoveredAfterAppend(tokens, t, k);
    }
  }

  lemma WaitingWithout(waiting: seq<Token>, w: nat)
    requires w < |waiting| && forall k :: 0 <= k < |waiting| ==> 0 <= waiting[k].elapsed < MINUTE_MS
    ensures var rest := waiting[..w] + waiting[w + 1..]; forall k :: 0 <= k < |rest| ==> 0 <= rest[k].elapsed < MINUTE_MS
  {}

  lemma IncrementKeepsInv(b: Bucketful, caps: Caps, w: nat)
    requires Inv(b, caps) && Enabled(b, Increment(w))
    ensures Inv(Next(b, caps, Increment(w)), caps)
  {
    SumNonNegative(b.tokens, IsOpen());
    var t, rest := Entered(b.waiting[w], b.counter + 1), b.waiting[..w] + b.waiting[w + 1..];
    assert Next(b, caps, Increment(w)) == Bucketful(b.counter + 1, rest, b.tokens + [t]);
    WaitingWithout(b.waiting, w);
    EnteredKeepsInv(b, caps, rest, t);
  }

  /** One more token counted, with a total that covers it. */
  lemma EnteredKeepsInv(b: Bucketful, caps: Caps, rest: seq<Token>, t: Token)
    requires Inv(b, caps) && TokenOk(t, caps) && t.phase == Counted && t.total == b.counter + 1
    requires forall k :: 0 <= k < |rest| ==> 0 <= rest[k].elapsed < MINUTE_MS
    ensures Inv(Bucketful(b.counter + 1, rest, b.tokens + [t]), caps)
  {
    SumAppend(b.tokens, t, IsOpen());
    AppendKeepsTokens(b.tokens, t, caps);
  }

  lemma StepKeepsInv(b: Bucketful, caps: Caps, s: Step)
    requires Inv(b, caps) && Enabled(b, s)
    ensures Inv(Next(b, caps, s), caps)
  {
    match s
    case ReadPrevious(_, _, _) =>
    case Increment(w) => IncrementKeepsInv(b, caps, w);
    case Decide(i) =>
      UpdateKeepsInv(b, caps, i, Next(b, caps, s).tokens[i], b.counter);
    case GiveBack(i) =>
      SumAtLeastMember(b.tokens, i, IsOpen());
      UpdateKeepsInv(b, caps, i, b.tokens[i].(phase := Closed), b.counter - 1);
    case Release(i) =>
      SumAtLeastMember(b.tokens, i, IsOpen());
      UpdateKeepsInv(b, caps, i, b.tokens[i].(phase := Closed), b.counter - 1);
  }

  lemma {:induction false} RunKeepsInv(b: Bucketful, caps: Caps, steps: seq<Step>)
    requires Inv(b, caps) && RunOk(b, caps, steps)
    ensures Inv(Run(b, caps, steps), caps)
    decreases |steps|
  {
    if |steps| > 0 {
      StepKeepsInv(b, caps, steps[0]);
      RunKeepsInv(Next(b, caps, steps[0]), caps, steps[1..]);
    }
  }

  // -------------------------------------------------------------- the ceilings

  /** A token not over its ceiling was handed a total within it, whatever the previous minute held. */
  lemma GrantedWithinCeiling(t: Token, caps: Caps)
    requires 0 <= t.elapsed < MINUTE_MS && !Over(t, caps)
    ensures t.total <= caps.Of(t.priority)
  {
    assert 0 <= t.previous * (MINUTE_MS - t.elapsed);
  }

  lemma {:induction false} GrantedPrefix(b: Bucketful, caps: Caps, p: Priority, n: nat)
    requires Inv(b, caps) && caps.Valid() && n <= |b.tokens|
    ensures Sum(b.tokens[..n], GrantedUpTo(p)) <= caps.Of(p)
  {
    if n > 0 {
      var t := b.tokens[n - 1];
      assert b.tokens[..n][..n - 1] == b.tokens[..n - 1];
      if GrantedUpTo(p)(t) == 0 {
        GrantedPrefix(b, caps, p, n - 1);
      } else {
        SumMonotone(b.tokens[..n], GrantedUpTo(p), IsOpen());
        assert Covered(b.tokens, n - 1);
        GrantedWithinCeiling(t, caps);
      }
    }
  }

  /**
    Ceilings under interleaving. However the store operations of concurrent acquires interleave,
    and whatever the previous minute held, the tokens of one minute granted and kept by a class
    and the classes below it never exceed that class's ceiling.
  */
  lemma {:induction false} CeilingsHoldUnderInterleaving(caps: Caps, steps: seq<Step>, p: Priority)
    requires caps.Valid() && RunOk(Empty, caps, steps)
    ensures Sum(Run(Empty, caps, steps).tokens, GrantedUpTo(p)) <= caps.Of(p)
  {
    RunKeepsInv(Empty, caps, steps);
    var b := Run(Empty, caps, steps);
    GrantedPrefix(b, caps, p, |b.tokens|);
    assert b.tokens[..|b.tokens|] == b.tokens;
  }

  predicate Quiet(b: Bucketful) {
    forall i :: 0 <= i < |b.tokens| ==> b.tokens[i].phase == Granted || b.tokens[i].phase == Closed
  }

  /** With no acquire mid-step the bucket is exactly the tokens granted and not given back. */
  lemma {:induction false} QuietBucketIsExact(caps: Caps, steps: seq<Step>)
    requires RunOk(Empty, caps, steps) && Quiet(Run(Empty, caps, steps))
    ensures var b := Run(Empty, caps, steps); b.counter == Sum(b.tokens, GrantedUpTo(Live))
  {
    RunKeepsInv(Empty, caps, steps);
    var b := Run(Empty, caps, steps);
    SumMonotone(b.tokens, GrantedUpTo(Live), IsOpen());
    SumMonotone(b.tokens, IsOpen(), GrantedUpTo(Live));
  }

  lemma {:induction false} Prepend(b: Bucketful, caps: Caps, s: Step, rest: seq<Step>)
    requires Enabled(b, s) && RunOk(Next(b, caps, s), caps, rest)
    ensures RunOk(b, caps, [s] + rest) && Run(b, caps, [s] + rest) == Run(Next(b, caps, s), caps, rest)
  {
    assert ([s] + rest)[1..] == rest;
  }

  /** A run of one caller's steps with nobody else moving, from a bucket of `counter` tokens. */
  lemma AloneRuns(counter: nat, caps: Caps, p: Priority, previous: nat, elapsed: int) returns (steps: seq<Step>)
    requires 0 <= elapsed < MINUTE_MS
    ensures RunOk(Bucketful(counter, [], []), caps, steps)
    ensures var b := Run(Bucketful(counter, [], []), caps, steps);
            var over := Weighted(previous, counter + 1, elapsed) > caps.Of(p) * MINUTE_MS;
            && b.counter == (if over then counter else counter + 1)
            && |b.tokens| == 1 && b.tokens[0].phase == if over then Closed else Granted
  {
    var start := Bucketful(counter, [], []);
    var read := Next(start, caps, ReadPrevious(p, previous, elapsed));
    var counted := Next(read, caps, Increment(0));
    var decided := Next(counted, caps, Decide(0));
    var rest := if decided.tokens[0].phase == Refused then [GiveBack(0)] + [] else [];
    if decided.tokens[0].phase == Refused {
      Prepend(decided, caps, GiveBack(0), []);
    }
    Prepend(counted, caps, Decide(0), rest);
    Prepend(read, caps, Increment(0), [Decide(0)] + rest);
    Prepend(start, caps, ReadPrevious(p, previous, elapsed), [Increment(0)] + ([Decide(0)] + rest));
    steps := [ReadPrevious(p, previous, elapsed)] + ([Increment(0)] + ([Decide(0)] + rest));
  }

  /** The run of a lone caller's steps is the limiter's acquire: the same answer, and the same count afterwards. */
  lemma LoneCallerIsAcquire(st: LimiterState, caps: Caps, headerReserve: int, p: Priority, now: int) returns (counter: nat, steps: seq<Step>)
    requires Tidy(st.buckets, now)
    requires Acquire(st, caps, headerReserve, p, now, NoFault).1.reason != Some(ProviderMinuteHeader)
    ensures counter == ReadBucket(st.buckets, Minute(now), now) && RunOk(Bucketful(counter, [], []), caps, steps)
    ensures var (after, r) := Acquire(st, caps, headerReserve, p, now, NoFault);
            var b := Run(Bucketful(counter, [], []), caps, steps);
            && b.counter == ReadBucket(after.buckets, Minute(now), now)
            && |b.tokens| == 1 && b.tokens[0].phase == if r.allowed then Granted else Closed
  {
    var m := Minute(now);
    var taken := Incremented(st.buckets, m, 1, now, BUCKET_TTL_SECONDS);
    ReadIncremented(st.buckets, m, 1, now, m, now);
    ReadIncremented(taken, m, -1, now, m, now);
    counter := ReadBucket(st.buckets, m, now);
    steps := AloneRuns(counter, caps, p, ReadBucket(st.buckets, m - 1, now), Elapsed(now));
  }
}
