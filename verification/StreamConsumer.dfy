/**
  The Redis stream consumer (src/worker/redis-stream-consumer.ts) as a machine of any number of
  worker processes on one consumer group. Every `await` ends a step, so handler runs, dead-letter
  writes, acknowledgements, failures of each, aborts and crashes interleave freely.
*/
module StreamConsumer {
  import opened Common
  import opened AttemptCounter


  /** The `data` field: absent or empty, not decodable, or a fact with its own id (maybe empty). */
  datatype Data = Missing | Undecodable | Fact(factId: string)

  /** `eventId` is empty when the field is absent. */
  datatype Entry = Entry(streamId: string, eventId: string, data: Data)

  datatype Reason = MissingData | DecodeError | RetriesExhausted

  datatype DeadLetter = DeadLetter(entry: Entry, key: string, reason: Reason)

  /** The key attempts are counted under. */
  function DedupeKey(e: Entry): string {
    if e.data.Fact? && e.data.factId != "" then e.data.factId
    else if e.eventId != "" then e.eventId
    else "stream:" + e.streamId
  }

  datatype Stage =
    | Idle
    | Handling(entry: Entry, attempt: nat)
    | DeadLettering(entry: Entry, reason: Reason)
    | Acking(entry: Entry)

  /** What a process saw of an entry since it started: its handler failed, or it succeeded or was dead-lettered. */
  datatype Event = Failed(entry: Entry) | Cleared(entry: Entry)

  /** `history`, `evicted` and `dlqRefused` only record what happened; no branch reads them. */
  datatype Consumer = Consumer(queue: seq<Entry>, stage: Stage, counts: Counts,
                               history: seq<Event>, evicted: bool, dlqRefused: bool)

  datatype Bus = Bus(delivered: set<Entry>, pending: set<Entry>, handled: set<Entry>, dlq: seq<DeadLetter>,
                     consumers: seq<Consumer>)

  /** `maxAttempts`: the counter's bound. */
  datatype Config = Config(maxRetries: int, maxAttempts: nat)

  datatype Step =
    | Read(c: nat, batch: seq<Entry>)      // XREADGROUP hands over new entries
    | Redeliver(c: nat, entry: Entry)      // a claim sweep hands over a pending entry
    | Begin(c: nat)                        // take the next entry of the batch
    | HandlerDone(c: nat, ok: bool)        // the handler settles
    | DlqWritten(c: nat)                   // XADD succeeds
    | DlqFailed(c: nat, landed: bool)      // XADD throws; the copy may be there all the same
    | AckDone(c: nat)                      // XACK succeeds
    | AckFailed(c: nat, applied: bool)     // XACK throws; it may have been applied all the same
    | Abort(c: nat)                        // the signal stops the loop between entries
    | Crash(c: nat)                        // the process dies and a new one takes its place

  const Started := Consumer([], Idle, [], [], false, false)

  function Start(consumers: nat): Bus { Bus({}, {}, {}, [], seq(consumers, i => Started)) }

  predicate Enabled(b: Bus, s: Step) {
    s.c < |b.consumers| &&
    var me := b.consumers[s.c];
    match s
    case Read(_, batch) => me.stage == Idle && me.queue == [] && forall e :: e in batch ==> e !in b.delivered
    case Redeliver(_, entry) => me.stage == Idle && me.queue == [] && entry in b.pending
    case Begin(_) => me.stage == Idle && me.queue != []
    case HandlerDone(_, _) => me.stage.Handling?
    case DlqWritten(_) => me.stage.DeadLettering?
    case DlqFailed(_, _) => me.stage.DeadLettering?
    case AckDone(_) => me.stage.Acking?
    case AckFailed(_, _) => me.stage.Acking?
    case Abort(_) => me.stage == Idle
    case Crash(_) => true
  }

  function Begun(me: Consumer, cfg: Config): Consumer
    requires me.queue != []
  {
    var entry, rest := me.queue[0], me.queue[1..];
    var key := DedupeKey(entry);
    match entry.data
    case Missing => me.(queue := rest, stage := DeadLettering(entry, MissingData))
    case Undecodable => me.(queue := rest, stage := DeadLettering(entry, DecodeError))
    case Fact(_) =>
      me.(queue := rest, stage := Handling(entry, Get(me.counts, key) + 1),
          counts := Incremented(me.counts, key, cfg.maxAttempts),
          evicted := me.evicted || Evicts(me.counts, key, cfg.maxAttempts))
  }

  function HandlerSettled(me: Consumer, ok: bool, cfg: Config): Consumer
    requires me.stage.Handling?
  {
    var entry, key := me.stage.entry, DedupeKey(me.stage.entry);
    if ok then
      me.(stage := Acking(entry), counts := Without(me.counts, key), history := me.history + [Cleared(entry)])
    else
      me.(stage := if me.stage.attempt >= cfg.maxRetries then DeadLettering(entry, RetriesExhausted) else Idle,
          history := me.history + [Failed(entry)])
  }

  function DlqSettled(me: Consumer, written: bool): Consumer
    requires me.stage.DeadLettering?
  {
    var key := DedupeKey(me.stage.entry);
    if written then
      me.(stage := Acking(me.stage.entry), counts := Without(me.counts, key), history := me.history + [Cleared(me.stage.entry)])
    else me.(stage := Idle, dlqRefused := true)
  }

  function Letter(me: Consumer): DeadLetter
    requires me.stage.DeadLettering?
  {
    DeadLetter(me.stage.entry, DedupeKey(me.stage.entry), me.stage.reason)
  }

  /** The consumer's own part of a step. */
  function Moved(me: Consumer, s: Step, cfg: Config): Consumer
    requires s.Begin? ==> me.queue != []
    requires s.HandlerDone? ==> me.stage.Handling?
    requires s.DlqWritten? || s.DlqFailed? ==> me.stage.DeadLettering?
  {
    match s
    case Read(_, batch) => me.(queue := batch)
    case Redeliver(_, entry) => me.(queue := [entry])
    case Begin(_) => Begun(me, cfg)
    case HandlerDone(_, ok) => HandlerSettled(me, ok, cfg)
    case DlqWritten(_) => DlqSettled(me, true)
    case DlqFailed(_, _) => DlqSettled(me, false)
    case AckDone(_) => me.(stage := Idle)
    case AckFailed(_, _) => me.(stage := Idle)
    case Abort(_) => me.(queue := [])
    case Crash(_) => Started
  }

  function Next(b: Bus, cfg: Config, s: Step): Bus
    requires Enabled(b, s)
  {
    var me := b.consumers[s.c];
    var after := b.(consumers := b.consumers[s.c := Moved(me, s, cfg)]);
    match s
    case Read(_, batch) => after.(delivered := b.delivered + Elements(batch), pending := b.pending + Elements(batch))
    case HandlerDone(_, ok) => if ok then after.(handled := b.handled + {me.stage.entry}) else after
    case DlqWritten(_) => after.(dlq := b.dlq + [Letter(me)])
    case DlqFailed(_, landed) => if landed then after.(dlq := b.dlq + [Letter(me)]) else after
    case AckDone(_) => after.(pending := b.pending - {me.stage.entry})
    case AckFailed(_, applied) => if applied then after.(pending := b.pending - {me.stage.entry}) else after
    case _ => after
  }

  function Elements(batch: seq<Entry>): set<Entry> { set e | e in batch }

  predicate RunOk(b: Bus, cfg: Config, steps: seq<Step>)
    decreases |steps|
  {
    |steps| == 0 || (Enabled(b, steps[0]) && RunOk(Next(b, cfg, steps[0]), cfg, steps[1..]))
  }

  function Run(b: Bus, cfg: Config, steps: seq<Step>): Bus
    requires RunOk(b, cfg, steps)
    decreases |steps|
  {
    if |steps| == 0 then b else Run(Next(b, cfg, steps[0]), cfg, steps[1..])
  }

  // ------------------------------------------------------------------ no loss

  ghost predicate OnDlq(dlq: seq<DeadLetter>, e: Entry) { exists d :: d in dlq && d.entry == e }

  /** The entry was handled, or a copy is on the dead-letter stream. */
  ghost predicate Settled(b: Bus, e: Entry) { e in b.handled || OnDlq(b.dlq, e) }

  ghost predicate Sound(b: Bus, me: Consumer) {
    me.stage.Acking? ==> Settled(b, me.stage.entry)
  }

  /** Nothing delivered is lost, and an acknowledgement is only under way for a settled entry. */
  ghost predicate Safe(b: Bus) {
    && (forall e :: e in b.delivered ==> e in b.pending || Settled(b, e))
    && (forall c :: 0 <= c < |b.consumers| ==> Sound(b, b.consumers[c]))
  }

  lemma SettledStays(b: Bus, cfg: Config, s: Step, e: Entry)
    requires Enabled(b, s) && Settled(b, e)
    ensures Settled(Next(b, cfg, s), e)
  {
    if OnDlq(b.dlq, e) {
      var d :| d in b.dlq && d.entry == e;
      assert d in Next(b, cfg, s).dlq;
    }
  }

  lemma StepSettles(b: Bus, cfg: Config, s: Step)
    requires Enabled(b, s) && Sound(b, b.consumers[s.c])
    ensures Sound(Next(b, cfg, s), Next(b, cfg, s).consumers[s.c])
  {
    var me, after := b.consumers[s.c], Next(b, cfg, s);
    if s.DlqWritten? {
      assert Letter(me) in after.dlq;
    }
  }

  lemma StepKeepsSafe(b: Bus, cfg: Config, s: Step)
    requires Safe(b) && Enabled(b, s)
    ensures Safe(Next(b, cfg, s))
  {
    var after := Next(b, cfg, s);
    assert Sound(b, b.consumers[s.c]);
    StepSettles(b, cfg, s);
    forall e | e in after.delivered
      ensures e in after.pending || Settled(after, e)
    {
      if Settled(b, e) {
        SettledStays(b, cfg, s, e);
      }
    }
    forall c | 0 <= c < |after.consumers|
      ensures Sound(after, after.consumers[c])
    {
      if c != s.c {
        assert Sound(b, b.consumers[c]);
        if b.consumers[c].stage.Acking? {
          SettledStays(b, cfg, s, b.consumers[c].stage.entry);
        }
      }
    }
  }

  lemma {:induction false} RunKeepsSafe(b: Bus, cfg: Config, steps: seq<Step>)
    requires Safe(b) && RunOk(b, cfg, steps)
    ensures Safe(Run(b, cfg, steps))
    decreases |steps|
  {
    if |steps| > 0 {
      StepKeepsSafe(b, cfg, steps[0]);
      RunKeepsSafe(Next(b, cfg, steps[0]), cfg, steps[1..]);
    }
  }

  /**
    No loss: in every run, with handlers, dead-letter writes and acknowledgements failing or
    half-succeeding anyhow, and processes aborting and crashing anywhere, each delivered entry is
    still pending, or its handler succeeded, or a copy is on the dead-letter stream.
  */
  lemma {:induction false} NothingIsLost(consumers: nat, cfg: Config, steps: seq<Step>, e: Entry)
    requires RunOk(Start(consumers), cfg, steps)
    requires e in Run(Start(consumers), cfg, steps).delivered
    ensures var b := Run(Start(consumers), cfg, steps);
            e in b.pending || e in b.handled || OnDlq(b.dlq, e)
  {
    RunKeepsSafe(Start(consumers), cfg, steps);
  }

  /** An entry leaves the pending list only after its handler succeeded or its copy was written. */
  lemma {:induction false} AckedOnlyWhenSettled(consumers: nat, cfg: Config, steps: seq<Step>, s: Step, e: Entry)
    requires RunOk(Start(consumers), cfg, steps) && Enabled(Run(Start(consumers), cfg, steps), s)
    requires e in Run(Start(consumers), cfg, steps).pending
    requires e !in Next(Run(Start(consumers), cfg, steps), cfg, s).pending
    ensures Settled(Run(Start(consumers), cfg, steps), e)
  {
    RunKeepsSafe(Start(consumers), cfg, steps);
    var b := Run(Start(consumers), cfg, steps);
    assert Sound(b, b.consumers[s.c]);
  }

  // ----------------------------------------------------------------- attempts

  /**
    What an entry's failures are counted under: the fact's own id, whatever its stream and event ids;
    for an entry without one the event id, and without that its stream id, marked as one.
  */
  predicate Identified(e: Entry, id: string) {
    if e.data.Fact? && |e.data.factId| > 0 then id == e.data.factId
    else if |e.eventId| > 0 then id == e.eventId
    else |id| >= 7 && id[..7] == "stream:" && id[7..] == e.streamId
  }

  lemma IdentifiedIs(e: Entry, id: string)
    ensures Identified(e, id) <==> DedupeKey(e) == id
  {
    var marked := "stream:" + e.streamId;
    assert marked[..7] == "stream:" && marked[7..] == e.streamId;
    if |id| >= 7 {
      assert id == id[..7] + id[7..];
    }
  }

  /** Failures in a row of what counts under `id`, since the process last saw one of them succeed or dead-lettered. */
  function Streak(history: seq<Event>, id: string): nat {
    if |history| == 0 then 0
    else
      var front, last := history[..|history| - 1], history[|history| - 1];
      if !Identified(last.entry, id) then Streak(front, id) else if last.Failed? then Streak(front, id) + 1 else 0
  }

  lemma {:induction false} StreakAppend(history: seq<Event>, e: Event, id: string)
    ensures Streak(history + [e], id) ==
            if !Identified(e.entry, id) then Streak(history, id) else if e.Failed? then Streak(history, id) + 1 else 0
  {
    assert (history + [e])[..|history|] == history;
  }

  /** 1 while a handler run of such an entry is in progress: it is counted but has not failed yet. */
  function InHandler(me: Consumer, id: string): nat {
    if me.stage.Handling? && Identified(me.stage.entry, id) then 1 else 0
  }

  /** The process has such an entry's outcome in hand. */
  predicate Concerns(me: Consumer, id: string) {
    (me.stage.Handling? || me.stage.DeadLettering?) && Identified(me.stage.entry, id)
  }

  function Limit(cfg: Config): nat { Max(1, cfg.maxRetries) }

  ghost predicate CountOk(me: Consumer, cfg: Config, key: string) {
    var n := Get(me.counts, key);
    && n <= Streak(me.history, key) + InHandler(me, key)
    && (!me.evicted ==> n == Streak(me.history, key) + InHandler(me, key))
    && (!me.dlqRefused ==> n <= Limit(cfg) && (!Concerns(me, key) ==> n < Limit(cfg)))
  }

  predicate ReasonOk(reason: Reason, data: Data) {
    match reason
    case MissingData => data.Missing?
    case DecodeError => data.Undecodable?
    case RetriesExhausted => data.Fact?
  }

  ghost predicate StageOk(me: Consumer, cfg: Config) {
    match me.stage
    case Handling(e, attempt) => e.data.Fact? && 1 <= attempt && attempt == Get(me.counts, DedupeKey(e))
    case DeadLettering(e, reason) =>
      ReasonOk(reason, e.data) && (reason == RetriesExhausted ==> Limit(cfg) <= Streak(me.history, DedupeKey(e)))
    case _ => true
  }

  ghost predicate Counted(me: Consumer, cfg: Config) {
    && NoDup(me.counts) && |me.counts| <= cfg.maxAttempts
    && StageOk(me, cfg)
    && forall key :: CountOk(me, cfg, key)
  }

  lemma BeginKeepsCount(me: Consumer, cfg: Config, k: string)
    requires Counted(me, cfg) && me.stage == Idle && me.queue != [] && 0 < cfg.maxAttempts
    ensures CountOk(Begun(me, cfg), cfg, k)
  {
    IncrementedIs(me.counts, DedupeKey(me.queue[0]), cfg.maxAttempts);
    IdentifiedIs(me.queue[0], k);
    assert CountOk(me, cfg, k);
  }

  lemma BeginKeepsCounted(me: Consumer, cfg: Config)
    requires Counted(me, cfg) && me.stage == Idle && me.queue != [] && 0 < cfg.maxAttempts
    ensures Counted(Begun(me, cfg), cfg)
  {
    forall k
      ensures CountOk(Begun(me, cfg), cfg, k)
    {
      BeginKeepsCount(me, cfg, k);
    }
    IncrementedIs(me.counts, DedupeKey(me.queue[0]), cfg.maxAttempts);
  }

  lemma HandlerKeepsCount(me: Consumer, ok: bool, cfg: Config, k: string)
    requires Counted(me, cfg) && me.stage.Handling?
    ensures CountOk(HandlerSettled(me, ok, cfg), cfg, k)
  {
    var entry, key := me.stage.entry, DedupeKey(me.stage.entry);
    WithoutIs(me.counts, key);
    IdentifiedIs(entry, k);
    assert CountOk(me, cfg, k);
    StreakAppend(me.history, if ok then Cleared(entry) else Failed(entry), k);
  }

  lemma HandlerKeepsCounted(me: Consumer, ok: bool, cfg: Config)
    requires Counted(me, cfg) && me.stage.Handling?
    ensures Counted(HandlerSettled(me, ok, cfg), cfg)
  {
    var key := DedupeKey(me.stage.entry);
    WithoutIs(me.counts, key);
    IdentifiedIs(me.stage.entry, key);
    assert CountOk(me, cfg, key);
    StreakAppend(me.history, if ok then Cleared(me.stage.entry) else Failed(me.stage.entry), key);
    forall k
      ensures CountOk(HandlerSettled(me, ok, cfg), cfg, k)
    {
      HandlerKeepsCount(me, ok, cfg, k);
    }
  }

  lemma DlqKeepsCounted(me: Consumer, written: bool, cfg: Config)
    requires Counted(me, cfg) && me.stage.DeadLettering?
    ensures Counted(DlqSettled(me, written), cfg)
  {
    var key, after := DedupeKey(me.stage.entry), DlqSettled(me, written);
    WithoutIs(me.counts, key);
    forall k
      ensures CountOk(after, cfg, k)
    {
      IdentifiedIs(me.stage.entry, k);
      assert CountOk(me, cfg, k);
      StreakAppend(me.history, Cleared(me.stage.entry), k);
    }
  }

  ghost predicate AllCounted(b: Bus, cfg: Config) {
    0 < cfg.maxAttempts && forall c :: 0 <= c < |b.consumers| ==> Counted(b.consumers[c], cfg)
  }

  lemma StartedIsCounted(cfg: Config)
    ensures Counted(Started, cfg)
  {}

  lemma StepKeepsCounted(b: Bus, cfg: Config, s: Step)
    requires AllCounted(b, cfg) && Enabled(b, s)
    ensures AllCounted(Next(b, cfg, s), cfg)
  {
    var me := b.consumers[s.c];
    assert Counted(me, cfg);
    StartedIsCounted(cfg);
    var after := Moved(me, s, cfg);
    assert Counted(after, cfg) by {
      match s
      case Begin(_) => BeginKeepsCounted(me, cfg);
      case HandlerDone(_, ok) => HandlerKeepsCounted(me, ok, cfg);
      case DlqWritten(_) => DlqKeepsCounted(me, true, cfg);
      case DlqFailed(_, _) => DlqKeepsCounted(me, false, cfg);
      case Crash(_) =>
      case _ =>
        forall k
          ensures CountOk(after, cfg, k)
        {
          assert CountOk(me, cfg, k);
        }
    }
    assert Next(b, cfg, s).consumers == b.consumers[s.c := after];
  }

  lemma {:induction false} RunKeepsCounted(b: Bus, cfg: Config, steps: seq<Step>)
    requires AllCounted(b, cfg) && RunOk(b, cfg, steps)
    ensures AllCounted(Run(b, cfg, steps), cfg)
    decreases |steps|
  {
    if |steps| > 0 {
      StepKeepsCounted(b, cfg, steps[0]);
      RunKeepsCounted(Next(b, cfg, steps[0]), cfg, steps[1..]);
    }
  }

  lemma StartIsCounted(consumers: nat, cfg: Config)
    requires 0 < cfg.maxAttempts
    ensures AllCounted(Start(consumers), cfg)
  {
    StartedIsCounted(cfg);
  }

  /**
    The attempt count of an id is the failures in a row, in that process, of the entries it identifies,
    plus the run in progress, which carries that count; an eviction can only lose some. While the
    dead-letter stream has taken every letter of the process, an id at rest has failed fewer than
    `maxRetries` times.
  */
  lemma {:induction false} AttemptsAreFailuresInARow(consumers: nat, cfg: Config, steps: seq<Step>, c: nat, key: string)
    requires 0 < cfg.maxAttempts && RunOk(Start(consumers), cfg, steps) && c < consumers
    ensures |Run(Start(consumers), cfg, steps).consumers| == consumers
    ensures var me := Run(Start(consumers), cfg, steps).consumers[c];
            var n := Get(me.counts, key);
            && n <= Streak(me.history, key) + InHandler(me, key)
            && (!me.evicted ==> n == Streak(me.history, key) + InHandler(me, key))
            && (me.stage.Handling? && Identified(me.stage.entry, key) ==> me.stage.attempt == n)
            && (!me.dlqRefused && !Concerns(me, key) ==> n < Limit(cfg))
  {
    StartIsCounted(consumers, cfg);
    RunKeepsCounted(Start(consumers), cfg, steps);
    SameConsumers(Start(consumers), cfg, steps);
    var me := Run(Start(consumers), cfg, steps).consumers[c];
    if me.stage.Handling? {
      IdentifiedIs(me.stage.entry, key);
    }
    assert Counted(me, cfg);
    assert CountOk(me, cfg, key);
  }

  lemma {:induction false} SameConsumers(b: Bus, cfg: Config, steps: seq<Step>)
    requires RunOk(b, cfg, steps)
    ensures |Run(b, cfg, steps).consumers| == |b.consumers|
    decreases |steps|
  {
    if |steps| > 0 {
      SameConsumers(Next(b, cfg, steps[0]), cfg, steps[1..]);
    }
  }

  /**
    Only what is due is dead-lettered: a letter carries the id its entry counts under, and names why;
    the entry bears it out; and at the moment a letter for exhausted retries is written the process
    has seen at least `maxRetries` failures in a row of entries with that id, whatever was evicted.
  */
  lemma {:induction false} DeadLettersAreDue(consumers: nat, cfg: Config, steps: seq<Step>, s: Step, d: DeadLetter)
    requires 0 < cfg.maxAttempts && RunOk(Start(consumers), cfg, steps)
    requires Enabled(Run(Start(consumers), cfg, steps), s)
    requires d in Next(Run(Start(consumers), cfg, steps), cfg, s).dlq && d !in Run(Start(consumers), cfg, steps).dlq
    ensures Identified(d.entry, d.key) && ReasonOk(d.reason, d.entry.data)
    ensures d.reason == RetriesExhausted ==>
      Limit(cfg) <= Streak(Run(Start(consumers), cfg, steps).consumers[s.c].history, d.key)
  {
    StartIsCounted(consumers, cfg);
    RunKeepsCounted(Start(consumers), cfg, steps);
    var b := Run(Start(consumers), cfg, steps);
    assert Counted(b.consumers[s.c], cfg);
    assert d == Letter(b.consumers[s.c]);
    IdentifiedIs(d.entry, d.key);
  }

  // ------------------------------------------------------------ fact by fact

  /** Failures in a row of one fact, whichever entries brought it. */
  function FactStreak(history: seq<Event>, f: string): nat {
    if |history| == 0 then 0
    else
      var front, last := history[..|history| - 1], history[|history| - 1];
      if last.entry.data != Fact(f) then FactStreak(front, f) else if last.Failed? then FactStreak(front, f) + 1 else 0
  }

  /** No entry without a fact id of its own goes by `f`. */
  ghost predicate Unaliased(entries: set<Entry>, f: string) {
    forall e :: e in entries && Identified(e, f) ==> e.data == Fact(f)
  }

  ghost predicate FromDelivered(b: Bus, me: Consumer) {
    && (forall e :: e in me.queue ==> e in b.delivered)
    && (!me.stage.Idle? ==> me.stage.entry in b.delivered)
    && (forall i :: 0 <= i < |me.history| ==> me.history[i].entry in b.delivered)
  }

  ghost predicate AllFromDelivered(b: Bus) {
    b.pending <= b.delivered && forall c :: 0 <= c < |b.consumers| ==> FromDelivered(b, b.consumers[c])
  }

  lemma StepKeepsDelivered(b: Bus, cfg: Config, s: Step)
    requires AllFromDelivered(b) && Enabled(b, s)
    ensures AllFromDelivered(Next(b, cfg, s))
  {
    assert FromDelivered(b, b.consumers[s.c]);
    var after := Next(b, cfg, s);
    forall c | 0 <= c < |after.consumers|
      ensures FromDelivered(after, after.consumers[c])
    {
      assert FromDelivered(b, b.consumers[c]);
    }
  }

  lemma {:induction false} RunKeepsDelivered(b: Bus, cfg: Config, steps: seq<Step>)
    requires AllFromDelivered(b) && RunOk(b, cfg, steps)
    ensures AllFromDelivered(Run(b, cfg, steps))
    decreases |steps|
  {
    if |steps| > 0 {
      StepKeepsDelivered(b, cfg, steps[0]);
      RunKeepsDelivered(Next(b, cfg, steps[0]), cfg, steps[1..]);
    }
  }

  lemma {:induction false} StreakOfFact(history: seq<Event>, entries: set<Entry>, f: string)
    requires |f| > 0 && Unaliased(entries, f) && forall i :: 0 <= i < |history| ==> history[i].entry in entries
    ensures Streak(history, f) == FactStreak(history, f)
  {
    if |history| > 0 {
      StreakOfFact(history[..|history| - 1], entries, f);
      assert Identified(history[|history| - 1].entry, f) <==> history[|history| - 1].entry.data == Fact(f);
    }
  }

  /**
    Each fact is counted on its own: all entries that bring it share its count, whatever their stream
    and event ids, and no other entry moves it, unless one without a fact id goes by it.
  */
  lemma {:induction false} FactsAreCountedApart(consumers: nat, cfg: Config, steps: seq<Step>, c: nat, f: string)
    requires 0 < cfg.maxAttempts && RunOk(Start(consumers), cfg, steps) && c < consumers
    requires |f| > 0 && Unaliased(Run(Start(consumers), cfg, steps).delivered, f)
    ensures |Run(Start(consumers), cfg, steps).consumers| == consumers
    ensures var me := Run(Start(consumers), cfg, steps).consumers[c];
            var running := if me.stage.Handling? && me.stage.entry.data == Fact(f) then 1 else 0;
            && Get(me.counts, f) <= FactStreak(me.history, f) + running
            && (!me.evicted ==> Get(me.counts, f) == FactStreak(me.history, f) + running)
            && (running == 1 ==> me.stage.attempt == Get(me.counts, f))
  {
    AttemptsAreFailuresInARow(consumers, cfg, steps, c, f);
    RunKeepsDelivered(Start(consumers), cfg, steps);
    var b := Run(Start(consumers), cfg, steps);
    assert FromDelivered(b, b.consumers[c]);
    StreakOfFact(b.consumers[c].history, b.delivered, f);
  }

  /**
    An entry with a fact id is dead-lettered only when its own fact has failed at least `maxRetries`
    times in a row in that process, however many others failed; and its letter carries that id.
  */
  lemma {:induction false} FactLettersAreDue(consumers: nat, cfg: Config, steps: seq<Step>, s: Step, d: DeadLetter, f: string)
    requires 0 < cfg.maxAttempts && RunOk(Start(consumers), cfg, steps)
    requires Enabled(Run(Start(consumers), cfg, steps), s)
    requires d in Next(Run(Start(consumers), cfg, steps), cfg, s).dlq && d !in Run(Start(consumers), cfg, steps).dlq
    requires |f| > 0 && d.entry.data == Fact(f) && Unaliased(Run(Start(consumers), cfg, steps).delivered, f)
    ensures d.key == f && d.reason == RetriesExhausted
    ensures cfg.maxRetries <= FactStreak(Run(Start(consumers), cfg, steps).consumers[s.c].history, f)
  {
    DeadLettersAreDue(consumers, cfg, steps, s, d);
    RunKeepsDelivered(Start(consumers), cfg, steps);
    var b := Run(Start(consumers), cfg, steps);
    assert FromDelivered(b, b.consumers[s.c]);
    StreakOfFact(b.consumers[s.c].history, b.delivered, f);
  }

  // ------------------------------------------------------ letters, one by one

  function LettersFor(dlq: seq<DeadLetter>, e: Entry): nat {
    if |dlq| == 0 then 0 else LettersFor(dlq[..|dlq| - 1], e) + if dlq[|dlq| - 1].entry == e then 1 else 0
  }

  /** The step puts a letter for `e` on the dead-letter stream: its write succeeds, or lands although it throws. */
  predicate Sends(b: Bus, s: Step, e: Entry)
    requires Enabled(b, s)
  {
    (s.DlqWritten? || (s.DlqFailed? && s.landed)) && b.consumers[s.c].stage.entry == e
  }

  /** The step acknowledges `e`: its XACK succeeds, or is applied although it throws. */
  predicate Acknowledges(b: Bus, s: Step, e: Entry)
    requires Enabled(b, s)
  {
    (s.AckDone? || (s.AckFailed? && s.applied)) && b.consumers[s.c].stage.entry == e
  }

  function SendsIn(b: Bus, cfg: Config, steps: seq<Step>, e: Entry): nat
    requires RunOk(b, cfg, steps)
    decreases |steps|
  {
    if |steps| == 0 then 0 else (if Sends(b, steps[0], e) then 1 else 0) + SendsIn(Next(b, cfg, steps[0]), cfg, steps[1..], e)
  }

  lemma {:induction false} StepSends(b: Bus, cfg: Config, s: Step, e: Entry)
    requires Enabled(b, s)
    ensures LettersFor(Next(b, cfg, s).dlq, e) == LettersFor(b.dlq, e) + if Sends(b, s, e) then 1 else 0
    ensures e in b.pending ==> (e !in Next(b, cfg, s).pending <==> Acknowledges(b, s, e))
  {
    if s.DlqWritten? || (s.DlqFailed? && s.landed) {
      var all := b.dlq + [Letter(b.consumers[s.c])];
      assert all[..|all| - 1] == b.dlq;
    }
  }

  /** In every run the letters of an entry are the writes that succeeded and those that landed although they threw. */
  lemma {:induction false} LettersAreWrites(b: Bus, cfg: Config, steps: seq<Step>, e: Entry)
    requires RunOk(b, cfg, steps)
    ensures LettersFor(Run(b, cfg, steps).dlq, e) == LettersFor(b.dlq, e) + SendsIn(b, cfg, steps, e)
    decreases |steps|
  {
    if |steps| > 0 {
      StepSends(b, cfg, steps[0], e);
      LettersAreWrites(Next(b, cfg, steps[0]), cfg, steps[1..], e);
    }
  }

  // ------------------------------------------------ where a failing entry ends

  lemma {:induction false} Prepend(b: Bus, cfg: Config, s: Step, rest: seq<Step>)
    requires Enabled(b, s) && RunOk(Next(b, cfg, s), cfg, rest)
    ensures RunOk(b, cfg, [s] + rest) && Run(b, cfg, [s] + rest) == Run(Next(b, cfg, s), cfg, rest)
  {
    assert ([s] + rest)[1..] == rest;
  }

  /** A process has just this entry in hand, an undecided fact, and its counter is in order. */
  ghost predicate InHand(b: Bus, cfg: Config, c: nat, e: Entry) {
    && c < |b.consumers| && b.consumers[c].stage == Idle && b.consumers[c].queue == [e] && e in b.pending && e.data.Fact?
    && 0 < cfg.maxAttempts && NoDup(b.consumers[c].counts) && |b.consumers[c].counts| <= cfg.maxAttempts
  }

  function FailedRuns(steps: seq<Step>, c: nat): nat {
    if |steps| == 0 then 0 else FailedRuns(steps[1..], c) + if steps[0] == HandlerDone(c, false) then 1 else 0
  }

  /** One failed run: the entry is left with one attempt more, or to be dead-lettered. */
  lemma FailsOnce(b: Bus, cfg: Config, c: nat, e: Entry) returns (after: Bus)
    requires InHand(b, cfg, c, e)
    ensures Enabled(b, Begin(c)) && Enabled(Next(b, cfg, Begin(c)), HandlerDone(c, false))
    ensures after == Next(Next(b, cfg, Begin(c)), cfg, HandlerDone(c, false)) && c < |after.consumers|
    ensures after.pending == b.pending && after.dlq == b.dlq && after.consumers[c].queue == []
    ensures var me, n := after.consumers[c], Get(b.consumers[c].counts, DedupeKey(e)) + 1;
            && Get(me.counts, DedupeKey(e)) == n && NoDup(me.counts) && |me.counts| <= cfg.maxAttempts
            && me.stage == if n >= cfg.maxRetries then DeadLettering(e, RetriesExhausted) else Idle
  {
    IncrementedIs(b.consumers[c].counts, DedupeKey(e), cfg.maxAttempts);
    after := Next(Next(b, cfg, Begin(c)), cfg, HandlerDone(c, false));
  }

  lemma {:induction false} LetterAndAck(b: Bus, cfg: Config, c: nat, e: Entry)
    requires c < |b.consumers| && b.consumers[c].stage == DeadLettering(e, RetriesExhausted) && e in b.pending
    ensures var steps := [DlqWritten(c), AckDone(c)];
            RunOk(b, cfg, steps) && OnDlq(Run(b, cfg, steps).dlq, e) && e !in Run(b, cfg, steps).pending && FailedRuns(steps, c) == 0
  {
    var b1 := Next(b, cfg, DlqWritten(c));
    var b2 := Next(b1, cfg, AckDone(c));
    assert Letter(b.consumers[c]) in b2.dlq;
    Prepend(b1, cfg, AckDone(c), []);
    Prepend(b, cfg, DlqWritten(c), [AckDone(c)]);
    assert [AckDone(c)] + [] == [AckDone(c)];
    var steps := [DlqWritten(c)] + [AckDone(c)];
    assert steps == [DlqWritten(c), AckDone(c)] && steps[1..] == [AckDone(c)] && steps[1..][1..] == [];
    assert FailedRuns(steps[1..][1..], c) == 0 && FailedRuns(steps[1..], c) == 0;
  }

  /**
    An entry whose handler keeps failing, and that is handed back each time, is dead-lettered and
    acknowledged after as many failed runs as its fact has attempts left, and one at least.
  */
  lemma FailingEntryIsDeadLettered(b: Bus, cfg: Config, c: nat, e: Entry, id: string) returns (steps: seq<Step>)
    requires InHand(b, cfg, c, e) && Identified(e, id)
    ensures RunOk(b, cfg, steps)
    ensures OnDlq(Run(b, cfg, steps).dlq, e) && e !in Run(b, cfg, steps).pending
    ensures FailedRuns(steps, c) == Max(1, cfg.maxRetries - Get(b.consumers[c].counts, id))
    decreases cfg.maxRetries - Get(b.consumers[c].counts, id)
  {
    IdentifiedIs(e, id);
    var after := FailsOnce(b, cfg, c, e);
    var rest: seq<Step>;
    if after.consumers[c].stage != Idle {
      LetterAndAck(after, cfg, c, e);
      rest := [DlqWritten(c), AckDone(c)];
    } else {
      var back := Next(after, cfg, Redeliver(c, e));
      var more := FailingEntryIsDeadLettered(back, cfg, c, e, id);
      Prepend(after, cfg, Redeliver(c, e), more);
      rest := [Redeliver(c, e)] + more;
      assert rest[1..] == more && FailedRuns(rest, c) == FailedRuns(more, c);
    }
    var begun := Next(b, cfg, Begin(c));
    Prepend(begun, cfg, HandlerDone(c, false), rest);
    Prepend(b, cfg, Begin(c), [HandlerDone(c, false)] + rest);
    steps := [Begin(c)] + ([HandlerDone(c, false)] + rest);
    assert steps[1..] == [HandlerDone(c, false)] + rest && steps[1..][1..] == rest;
    assert FailedRuns(steps[1..], c) == FailedRuns(rest, c) + 1;
  }

  /** One whose handler succeeds is handled, acknowledged, and counted from nothing again. */
  lemma {:induction false} HandledEntryIsAcknowledged(b: Bus, cfg: Config, c: nat, e: Entry, id: string)
    requires InHand(b, cfg, c, e) && Identified(e, id)
    ensures var steps := [Begin(c)] + ([HandlerDone(c, true)] + [AckDone(c)]);
            RunOk(b, cfg, steps) &&
            var after := Run(b, cfg, steps);
            && e in after.handled && after.pending == b.pending - {e} && after.dlq == b.dlq
            && c < |after.consumers| && after.consumers[c].stage == Idle && Get(after.consumers[c].counts, id) == 0
  {
    IdentifiedIs(e, id);
    IncrementedIs(b.consumers[c].counts, id, cfg.maxAttempts);
    var begun := Next(b, cfg, Begin(c));
    WithoutIs(begun.consumers[c].counts, id);
    var done := Next(begun, cfg, HandlerDone(c, true));
    Prepend(done, cfg, AckDone(c), []);
    assert [AckDone(c)] + [] == [AckDone(c)];
    Prepend(begun, cfg, HandlerDone(c, true), [AckDone(c)]);
    Prepend(b, cfg, Begin(c), [HandlerDone(c, true)] + [AckDone(c)]);
  }

  /** One read from a stream by a fresh process brings it there. */
  lemma ReadIsInHand(cfg: Config, e: Entry)
    requires 0 < cfg.maxAttempts && e.data.Fact?
    ensures Enabled(Start(1), Read(0, [e])) && InHand(Next(Start(1), cfg, Read(0, [e])), cfg, 0, e)
  {}

  /** The keys of the entries a step reads are among `keys`. */
  ghost predicate ReadsOnly(s: Step, keys: set<string>) {
    s.Read? ==> forall e :: e in s.batch ==> DedupeKey(e) in keys
  }

  ghost predicate Within(me: Consumer, keys: set<string>) {
    && !me.evicted && NoDup(me.counts)
    && (forall n :: n in me.counts ==> n.key in keys)
    && (forall e :: e in me.queue ==> DedupeKey(e) in keys)
  }

  ghost predicate AllWithin(b: Bus, keys: set<string>) {
    && (forall e :: e in b.pending ==> DedupeKey(e) in keys)
    && (forall c :: 0 <= c < |b.consumers| ==> Within(b.consumers[c], keys))
  }

  lemma StepKeepsWithin(b: Bus, cfg: Config, s: Step, keys: set<string>)
    requires AllWithin(b, keys) && Enabled(b, s) && ReadsOnly(s, keys) && |keys| <= cfg.maxAttempts
    ensures AllWithin(Next(b, cfg, s), keys)
  {
    var me := b.consumers[s.c];
    assert Within(me, keys);
    var after := Moved(me, s, cfg);
    if s.Begin? {
      var key := DedupeKey(me.queue[0]);
      assert me.queue[0] in me.queue;
      MovedIs(me.counts, key);
      WithoutKeys(me.counts, key);
      KeysFit(AttemptCounter.Moved(me.counts, key), keys);
    } else if s.HandlerDone? || s.DlqWritten? {
      var key := DedupeKey(me.stage.entry);
      WithoutIs(me.counts, key);
      WithoutKeys(me.counts, key);
    }
    assert Within(after, keys);
    assert Next(b, cfg, s).consumers == b.consumers[s.c := after];
  }

  lemma {:induction false} KeysFit(counts: Counts, keys: set<string>)
    requires NoDup(counts) && forall n :: n in counts ==> n.key in keys
    ensures |counts| <= |keys|
    decreases |counts|
  {
    if |counts| > 0 {
      var front, last := counts[..|counts| - 1], counts[|counts| - 1];
      forall n | n in front
        ensures n.key in keys - {last.key}
      {
        assert n in counts;
      }
      KeysFit(front, keys - {last.key});
    }
  }

  lemma {:induction false} RunKeepsWithin(b: Bus, cfg: Config, steps: seq<Step>, keys: set<string>)
    requires AllWithin(b, keys) && RunOk(b, cfg, steps) && |keys| <= cfg.maxAttempts
    requires forall i :: 0 <= i < |steps| ==> ReadsOnly(steps[i], keys)
    ensures AllWithin(Run(b, cfg, steps), keys)
    decreases |steps|
  {
    if |steps| > 0 {
      StepKeepsWithin(b, cfg, steps[0], keys);
      RunKeepsWithin(Next(b, cfg, steps[0]), cfg, steps[1..], keys);
    }
  }

  /**
    With no more keys than the counter holds, nothing is ever evicted, so a count is exactly the
    failures in a row; and while the dead-letter stream takes every letter, no key fails
    `maxRetries` times in a row without being dead-lettered.
  */
  lemma {:induction false} FewKeysAreCountedExactly(consumers: nat, cfg: Config, steps: seq<Step>, keys: set<string>, c: nat, key: string)
    requires 0 < cfg.maxAttempts && |keys| <= cfg.maxAttempts && c < consumers
    requires RunOk(Start(consumers), cfg, steps) && forall i :: 0 <= i < |steps| ==> ReadsOnly(steps[i], keys)
    ensures |Run(Start(consumers), cfg, steps).consumers| == consumers
    ensures var me := Run(Start(consumers), cfg, steps).consumers[c];
            && Get(me.counts, key) == Streak(me.history, key) + InHandler(me, key)
            && (!me.dlqRefused && !Concerns(me, key) ==> Streak(me.history, key) < Limit(cfg))
  {
    RunKeepsWithin(Start(consumers), cfg, steps, keys);
    AttemptsAreFailuresInARow(consumers, cfg, steps, c, key);
    var b := Run(Start(consumers), cfg, steps);
    assert Within(b.consumers[c], keys);
  }

  // ---------------------------------------------------- one entry, in sequence

  datatype Call = XAdd(letter: DeadLetter) | XAck(streamId: string)

  /** The machine's pass over the entry at the head of an idle consumer's queue, up to the acknowledgement. */
  function HandlerPass(me: Consumer, handlerOk: bool, cfg: Config): Consumer
    requires me.queue != []
  {
    var begun := Begun(me, cfg);
    if begun.stage.Handling? then HandlerSettled(begun, handlerOk, cfg) else begun
  }

  function Pass(me: Consumer, handlerOk: bool, xAddOk: bool, cfg: Config): Consumer
    requires me.queue != []
  {
    var settled := HandlerPass(me, handlerOk, cfg);
    if settled.stage.DeadLettering? then DlqSettled(settled, xAddOk) else settled
  }

  function CallsOf(me: Consumer, handlerOk: bool, xAddOk: bool, cfg: Config): seq<Call>
    requires me.queue != []
  {
    var settled := HandlerPass(me, handlerOk, cfg);
    (if settled.stage.DeadLettering? then [XAdd(Letter(settled))] else []) +
    (if Pass(me, handlerOk, xAddOk, cfg).stage.Acking? then [XAck(me.queue[0].streamId)] else [])
  }

  function Alone(entry: Entry, counts: Counts): Consumer { Consumer([entry], Idle, counts, [], false, false) }

  /**
    One entry in hand, counted under `id`: the count before and after, and the commands sent. A malformed
    one goes to the dead-letter stream at once. A fact is acknowledged if its handler succeeds, left as it
    is while it has failed fewer than `maxRetries` times, and then dead-lettered. Only a written letter
    is acknowledged, and clears the count.
  */
  ghost predicate Settles(entry: Entry, id: string, maxRetries: int, handlerOk: bool, xAddOk: bool, before: nat, after: nat, sent: seq<Call>) {
    var ack := [XAck(entry.streamId)];
    match entry.data
    case Missing => after == (if xAddOk then 0 else before) && sent == [XAdd(DeadLetter(entry, id, MissingData))] + if xAddOk then ack else []
    case Undecodable => after == (if xAddOk then 0 else before) && sent == [XAdd(DeadLetter(entry, id, DecodeError))] + if xAddOk then ack else []
    case Fact(_) =>
      if handlerOk then after == 0 && sent == ack
      else if before + 1 < maxRetries then after == before + 1 && sent == []
      else after == (if xAddOk then 0 else before + 1) && sent == [XAdd(DeadLetter(entry, id, RetriesExhausted))] + if xAddOk then ack else []
  }

  lemma {:induction false} PassSettles(entry: Entry, id: string, counts: Counts, handlerOk: bool, xAddOk: bool, cfg: Config)
    requires Identified(entry, id) && NoDup(counts) && |counts| <= cfg.maxAttempts && 0 < cfg.maxAttempts
    ensures var me := Alone(entry, counts);
            Settles(entry, id, cfg.maxRetries, handlerOk, xAddOk, Get(counts, id), Get(Pass(me, handlerOk, xAddOk, cfg).counts, id),
                    CallsOf(me, handlerOk, xAddOk, cfg))
  {
    IdentifiedIs(entry, id);
    IncrementedIs(counts, id, cfg.maxAttempts);
    WithoutIs(counts, id);
    WithoutIs(Incremented(counts, id, cfg.maxAttempts), id);
  }

  /** The consumer object: its attempt counter, and the commands it sends. */
  class RedisStreamConsumer {
    const attempts: InMemoryAttemptCounter
    const maxRetries: int
    var calls: seq<Call>

    constructor (attempts: InMemoryAttemptCounter, maxRetries: int)
      ensures this.attempts == attempts && this.maxRetries == maxRetries && calls == []
    {
      this.attempts := attempts;
      this.maxRetries := maxRetries;
      calls := [];
    }

    /** `handlerOk`, `xAddOk`: how the handler and the dead-letter write would settle. */
    method HandleEntry(entry: Entry, handlerOk: bool, xAddOk: bool)
      requires attempts.Valid()
      modifies this, attempts
      ensures attempts.Valid()
      ensures var me := Alone(entry, old(attempts.counts)); var cfg := Config(maxRetries, attempts.max);
              && attempts.counts == Pass(me, handlerOk, xAddOk, cfg).counts
              && calls == old(calls) + CallsOf(me, handlerOk, xAddOk, cfg)
      ensures old(calls) <= calls
      ensures forall id :: Identified(entry, id) ==>
                Settles(entry, id, maxRetries, handlerOk, xAddOk, Get(old(attempts.counts), id), Get(attempts.counts, id), calls[|old(calls)|..])
      ensures forall id :: !Identified(entry, id) ==> Get(attempts.counts, id) <= Get(old(attempts.counts), id)
    {
      var key := DedupeKey(entry);
      ghost var before, had := calls, attempts.counts;
      ghost var cfg, sent := Config(maxRetries, attempts.max), CallsOf(Alone(entry, attempts.counts), handlerOk, xAddOk, Config(maxRetries, attempts.max));
      match entry.data {
        case Missing => SendDeadLetter(entry, key, MissingData, xAddOk);
        case Undecodable => SendDeadLetter(entry, key, DecodeError, xAddOk);
        case Fact(_) => HandleFact(entry, key, handlerOk, xAddOk);
      }
      assert calls == before + sent && calls[|before|..] == sent;
      forall id
        ensures Identified(entry, id) <==> id == key
      {
        IdentifiedIs(entry, id);
      }
      PassSettles(entry, key, had, handlerOk, xAddOk, cfg);
    }

    /** A decoded fact: count it, run the handler, and acknowledge, leave or dead-letter it. */
    method HandleFact(entry: Entry, key: string, handlerOk: bool, xAddOk: bool)
      requires attempts.Valid() && entry.data.Fact? && key == DedupeKey(entry)
      modifies this, attempts
      ensures attempts.Valid()
      ensures var me := Alone(entry, old(attempts.counts)); var cfg := Config(maxRetries, attempts.max);
              && attempts.counts == Pass(me, handlerOk, xAddOk, cfg).counts
              && calls == old(calls) + CallsOf(me, handlerOk, xAddOk, cfg)
      ensures forall k :: k != key ==> Get(attempts.counts, k) <= Get(old(attempts.counts), k)
    {
      var attempt := attempts.Increment(key);
      if handlerOk {
        attempts.Reset(key);
        calls := calls + [XAck(entry.streamId)];
        return;
      }
      if attempt >= maxRetries {
        SendDeadLetter(entry, key, RetriesExhausted, xAddOk);
      }
    }

    method SendDeadLetter(entry: Entry, key: string, reason: Reason, xAddOk: bool)
      requires attempts.Valid()
      modifies this, attempts
      ensures attempts.Valid()
      ensures attempts.counts == if xAddOk then Without(old(attempts.counts), key) else old(attempts.counts)
      ensures forall k :: Get(attempts.counts, k) == if xAddOk && k == key then 0 else Get(old(attempts.counts), k)
      ensures calls == old(calls) + [XAdd(DeadLetter(entry, key, reason))] + (if xAddOk then [XAck(entry.streamId)] else [])
    {
      calls := calls + [XAdd(DeadLetter(entry, key, reason))];
      if !xAddOk {
        return;
      }
      attempts.Reset(key);
      calls := calls + [XAck(entry.streamId)];
    }
  }
}
