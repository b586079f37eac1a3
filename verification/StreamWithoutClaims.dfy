/**
  The Redis stream consumer as it runs today (src/worker/redis-stream-consumer.ts): nothing claims
  pending entries, so no entry is handed over a second time.
*/
module StreamWithoutClaims {
  import opened Sums
  import opened StreamConsumer

  /** No claim sweep in the run, and no batch names an entry twice. */
  predicate Unclaimed(step: Step) {
    !step.Redeliver? && (step.Read? ==> forall i, j :: 0 <= i < j < |step.batch| ==> step.batch[i] != step.batch[j])
  }

  predicate AllUnclaimed(steps: seq<Step>) { forall i :: 0 <= i < |steps| ==> Unclaimed(steps[i]) }

  /** How often a consumer has `e` in hand: waiting in its batch, or being worked on. */
  function InHand(e: Entry): Consumer -> int {
    (me: Consumer) => multiset(me.queue)[e] + if me.stage != Idle && me.stage.entry == e then 1 else 0
  }

  function Hands(b: Bus, e: Entry): int { Sum(b.consumers, InHand(e)) }

  lemma MultisetHead(queue: seq<Entry>, e: Entry)
    requires queue != []
    ensures multiset(queue)[e] == multiset(queue[1..])[e] + if queue[0] == e then 1 else 0
  {
    assert queue == [queue[0]] + queue[1..];
  }

  lemma {:induction false} DistinctOnce(batch: seq<Entry>, e: Entry)
    requires forall i, j :: 0 <= i < j < |batch| ==> batch[i] != batch[j]
    ensures multiset(batch)[e] == if e in batch then 1 else 0
  {
    if batch != [] {
      MultisetHead(batch, e);
      DistinctOnce(batch[1..], e);
      assert batch[0] !in batch[1..];
      assert forall x :: x in batch <==> x == batch[0] || x in batch[1..];
    }
  }

  /** Only a read that hands it over puts an entry into hand. */
  lemma MovedHands(b: Bus, cfg: Config, s: Step, e: Entry)
    requires Enabled(b, s) && Unclaimed(s)
    ensures var me := b.consumers[s.c]; var after := Moved(me, s, cfg);
            && 0 <= InHand(e)(after)
            && (if s.Read? then InHand(e)(after) <= InHand(e)(me) + (if e in s.batch then 1 else 0) else InHand(e)(after) <= InHand(e)(me))
            && ((s.HandlerDone? && !after.stage.DeadLettering? && !after.stage.Acking?) || s.DlqFailed? || s.AckDone? || s.AckFailed? ==>
                  InHand(e)(after) == InHand(e)(me) - if me.stage.entry == e then 1 else 0)
  {
    var me := b.consumers[s.c];
    if s.Begin? {
      MultisetHead(me.queue, e);
    } else if s.Read? {
      DistinctOnce(s.batch, e);
    }
  }

  /** An entry in hand before its outcome is known is pending and has none. */
  ghost predicate Untouched(b: Bus, e: Entry) { e in b.pending && e !in b.handled && !OnDlq(b.dlq, e) }

  /** Waiting, or with its handler running. */
  ghost predicate Undecided(me: Consumer, e: Entry) { e in me.queue || (me.stage.Handling? && me.stage.entry == e) }

  ghost predicate OnceInv(b: Bus, e: Entry) {
    && 0 <= Hands(b, e) <= (if e in b.delivered then 1 else 0)
    && (forall c :: 0 <= c < |b.consumers| && Undecided(b.consumers[c], e) ==> Untouched(b, e))
    && (e in b.pending || e in b.handled || OnDlq(b.dlq, e) ==> e in b.delivered)
  }

  lemma HandsAfter(b: Bus, cfg: Config, s: Step, e: Entry)
    requires Enabled(b, s) && Unclaimed(s)
    ensures Hands(Next(b, cfg, s), e) == Hands(b, e) - InHand(e)(b.consumers[s.c]) + InHand(e)(Moved(b.consumers[s.c], s, cfg))
    ensures 0 <= Hands(Next(b, cfg, s), e)
    ensures InHand(e)(b.consumers[s.c]) <= Hands(b, e)
  {
    SumUpdate(b.consumers, s.c, Moved(b.consumers[s.c], s, cfg), InHand(e));
    SumNonNegative(Next(b, cfg, s).consumers, InHand(e));
    SumAtLeastMember(b.consumers, s.c, InHand(e));
  }

  /** Two consumers with the entry in hand make two hands. */
  lemma {:induction false} TwoHands(consumers: seq<Consumer>, c: nat, d: nat, e: Entry)
    requires c < d < |consumers|
    ensures InHand(e)(consumers[c]) + InHand(e)(consumers[d]) <= Sum(consumers, InHand(e))
    decreases |consumers|
  {
    var n := |consumers| - 1;
    if d == n {
      SumAtLeastMember(consumers[..n], c, InHand(e));
    } else {
      TwoHands(consumers[..n], c, d, e);
    }
  }

  /** With one hand at most, the others do not have what consumer `c` has. */
  lemma OthersHaveNot(b: Bus, c: nat, d: nat, e: Entry)
    requires Hands(b, e) <= 1 && c < |b.consumers| && d < |b.consumers| && c != d && 0 < InHand(e)(b.consumers[c])
    ensures InHand(e)(b.consumers[d]) == 0 && !Undecided(b.consumers[d], e)
  {
    TwoHands(b.consumers, if c < d then c else d, if c < d then d else c, e);
  }

  /** What a step does to the fate of `e`: nothing, unless its consumer is working on `e` or reads it. */
  lemma FateAfter(b: Bus, cfg: Config, s: Step, e: Entry)
    requires Enabled(b, s) && Unclaimed(s)
    requires b.consumers[s.c].stage != Idle ==> b.consumers[s.c].stage.entry != e
    ensures var after := Next(b, cfg, s);
            && (e in after.pending <==> e in b.pending || (s.Read? && e in s.batch))
            && (e in after.handled <==> e in b.handled) && (OnDlq(after.dlq, e) <==> OnDlq(b.dlq, e))
            && (e in after.delivered <==> e in b.delivered || (s.Read? && e in s.batch))
  {
    var me, after := b.consumers[s.c], Next(b, cfg, s);
    if OnDlq(b.dlq, e) {
      var d :| d in b.dlq && d.entry == e;
      assert d in after.dlq;
    }
    if OnDlq(after.dlq, e) {
      var d :| d in after.dlq && d.entry == e;
      assert d in b.dlq;
    }
  }

  lemma InHandMeans(me: Consumer, e: Entry)
    ensures 0 <= InHand(e)(me)
    ensures e in me.queue ==> 0 < InHand(e)(me)
    ensures me.stage != Idle && me.stage.entry == e ==> 0 < InHand(e)(me)
    ensures e in me.queue && me.stage != Idle && me.stage.entry == e ==> 1 < InHand(e)(me)
  {}

  /** Of the consumer that moved: its undecided entries were undecided before, or it has just read them. */
  lemma MoverUndecided(b: Bus, cfg: Config, s: Step, e: Entry)
    requires Enabled(b, s) && Unclaimed(s) && Undecided(Moved(b.consumers[s.c], s, cfg), e) && InHand(e)(b.consumers[s.c]) <= 1
    ensures (s.Read? && e in s.batch) || Undecided(b.consumers[s.c], e)
    ensures b.consumers[s.c].stage != Idle ==> b.consumers[s.c].stage.entry != e
  {
    InHandMeans(b.consumers[s.c], e);
  }

  /** A step decides the outcome of an entry only with the entry in hand, and then nobody else has it. */
  lemma StepKeepsUntouched(b: Bus, cfg: Config, s: Step, e: Entry, c: nat)
    requires OnceInv(b, e) && Enabled(b, s) && Unclaimed(s)
    requires c < |b.consumers| && Undecided(Next(b, cfg, s).consumers[c], e)
    ensures Untouched(Next(b, cfg, s), e)
  {
    var me := b.consumers[s.c];
    if c != s.c {
      InHandMeans(b.consumers[c], e);
      OthersHaveNot(b, c, s.c, e);
      InHandMeans(me, e);
      assert Undecided(b.consumers[c], e);
    } else {
      HandsAfter(b, cfg, s, e);
      MoverUndecided(b, cfg, s, e);
      assert Undecided(me, e) ==> Untouched(b, e);
    }
    FateAfter(b, cfg, s, e);
  }

  lemma StepKeepsOnce(b: Bus, cfg: Config, s: Step, e: Entry)
    requires OnceInv(b, e) && Enabled(b, s) && Unclaimed(s)
    ensures OnceInv(Next(b, cfg, s), e)
  {
    HandsAfter(b, cfg, s, e);
    MovedHands(b, cfg, s, e);
    forall c | 0 <= c < |b.consumers| && Undecided(Next(b, cfg, s).consumers[c], e)
      ensures Untouched(Next(b, cfg, s), e)
    {
      StepKeepsUntouched(b, cfg, s, e, c);
    }
  }

  lemma {:induction false} RunKeepsOnce(b: Bus, cfg: Config, steps: seq<Step>, e: Entry)
    requires OnceInv(b, e) && RunOk(b, cfg, steps) && AllUnclaimed(steps)
    ensures OnceInv(Run(b, cfg, steps), e)
    decreases |steps|
  {
    if |steps| > 0 {
      StepKeepsOnce(b, cfg, steps[0], e);
      RunKeepsOnce(Next(b, cfg, steps[0]), cfg, steps[1..], e);
    }
  }

  lemma StartOnce(consumers: nat, e: Entry)
    ensures OnceInv(Start(consumers), e)
  {
    SumZero(Start(consumers).consumers, InHand(e));
  }

  // ---------------------------------------------------------------- no retry

  /** Delivered and in nobody's hand, an entry's fate is settled for good: whether it is pending, handled and on the dead-letter stream. */
  ghost predicate SameFate(b: Bus, after: Bus, e: Entry) {
    && (e in after.pending <==> e in b.pending) && (e in after.handled <==> e in b.handled)
    && (OnDlq(after.dlq, e) <==> OnDlq(b.dlq, e))
  }

  lemma StepLeavesAlone(b: Bus, cfg: Config, s: Step, e: Entry)
    requires OnceInv(b, e) && Enabled(b, s) && Unclaimed(s) && e in b.delivered && Hands(b, e) == 0
    ensures SameFate(b, Next(b, cfg, s), e) && e in Next(b, cfg, s).delivered && Hands(Next(b, cfg, s), e) == 0
  {
    HandsAfter(b, cfg, s, e);
    MovedHands(b, cfg, s, e);
    InHandMeans(b.consumers[s.c], e);
    FateAfter(b, cfg, s, e);
  }

  lemma {:induction false} NobodyComesBack(b: Bus, cfg: Config, steps: seq<Step>, e: Entry)
    requires OnceInv(b, e) && RunOk(b, cfg, steps) && AllUnclaimed(steps) && e in b.delivered && Hands(b, e) == 0
    ensures SameFate(b, Run(b, cfg, steps), e)
    decreases |steps|
  {
    if |steps| > 0 {
      StepLeavesAlone(b, cfg, steps[0], e);
      StepKeepsOnce(b, cfg, steps[0], e);
      NobodyComesBack(Next(b, cfg, steps[0]), cfg, steps[1..], e);
    }
  }

  /**
    Without a claim sweep nothing is retried: once an entry's handler has failed below the retry
    limit, then however the run goes on, by whatever processes, the entry stays pending, is not
    handled, and gets no dead letter.
  */
  lemma {:induction false} FailedEntryIsStuck(consumers: nat, cfg: Config, steps: seq<Step>, c: nat, later: seq<Step>)
    requires RunOk(Start(consumers), cfg, steps) && AllUnclaimed(steps) && Enabled(Run(Start(consumers), cfg, steps), HandlerDone(c, false))
    requires Run(Start(consumers), cfg, steps).consumers[c].stage.attempt < cfg.maxRetries
    requires RunOk(Next(Run(Start(consumers), cfg, steps), cfg, HandlerDone(c, false)), cfg, later) && AllUnclaimed(later)
    ensures var b := Run(Start(consumers), cfg, steps);
            Untouched(Run(Next(b, cfg, HandlerDone(c, false)), cfg, later), b.consumers[c].stage.entry)
  {
    var b := Run(Start(consumers), cfg, steps);
    var e, s := b.consumers[c].stage.entry, HandlerDone(c, false);
    StartOnce(consumers, e);
    RunKeepsOnce(Start(consumers), cfg, steps, e);
    FailedOutOfHand(b, cfg, c, e);
    StepKeepsOnce(b, cfg, s, e);
    NobodyComesBack(Next(b, cfg, s), cfg, later, e);
  }

  lemma FailedOutOfHand(b: Bus, cfg: Config, c: nat, e: Entry)
    requires OnceInv(b, e) && Enabled(b, HandlerDone(c, false)) && b.consumers[c].stage.entry == e && b.consumers[c].stage.attempt < cfg.maxRetries
    ensures var after := Next(b, cfg, HandlerDone(c, false)); Hands(after, e) == 0 && e in after.delivered && Untouched(after, e)
  {
    var s := HandlerDone(c, false);
    InHandMeans(b.consumers[c], e);
    HandsAfter(b, cfg, s, e);
    MovedHands(b, cfg, s, e);
    assert Undecided(b.consumers[c], e);
  }
}
