/**
  The match-concluded publisher (src/worker/match-concluded-publisher.ts): classify, reserve the
  fixture's marker, publish, and roll the marker back when the publish fails. Any number of
  `observe` calls, in any number of processes on one marker store, interleave at every `await`.
*/
module MatchConcluded {
  import opened Common
  import opened Sums
  import opened EmittedStore

  // ----------------------------------------------------------- classification

  datatype Classification = TerminalResult | TerminalVoid

  const TERMINAL_RESULT_STATUSES := {"FT", "AET", "PEN"}
  const TERMINAL_VOID_STATUSES := {"PST", "ABD", "AWD", "WO"}

  /** `None` for a status that is no string. */
  function Classify(statusShort: Option<string>): Option<Classification> {
    match statusShort
    case None => None
    case Some(status) =>
      var normalised := Upper(Trim(status));
      if normalised in TERMINAL_RESULT_STATUSES then Some(TerminalResult)
      else if normalised in TERMINAL_VOID_STATUSES then Some(TerminalVoid)
      else None
  }

  lemma {:induction false} TrimStartIgnoresCase(s: string, t: string)
    requires SameButCase(s, t)
    ensures SameButCase(TrimStart(s), TrimStart(t))
  {
    if |s| > 0 {
      assert SameLetter(s[0], t[0]);
      if IsSpace(s[0]) {
        TrimStartIgnoresCase(s[1..], t[1..]);
      }
    }
  }

  lemma {:induction false} TrimEndIgnoresCase(s: string, t: string)
    requires SameButCase(s, t)
    ensures SameButCase(TrimEnd(s), TrimEnd(t))
  {
    if |s| > 0 {
      var n := |s| - 1;
      assert SameLetter(s[n], t[n]);
      if IsSpace(s[n]) {
        TrimEndIgnoresCase(s[..n], t[..n]);
      }
    }
  }

  /** Casing drift on the provider's side changes no classification. */
  lemma CaseNeverMatters(s: string, t: string)
    requires SameButCase(s, t)
    ensures Classify(Some(s)) == Classify(Some(t))
  {
    TrimStartIgnoresCase(s, t);
    TrimEndIgnoresCase(TrimStart(s), TrimStart(t));
    CaseFolds(Trim(s), Trim(t));
  }

  /** Trimmed, and but for the case of its letters, the status is this word. */
  ghost predicate Says(status: Option<string>, word: string) { status.Some? && SameButCase(Trim(status.value), word) }

  /**
    A match is concluded with a result by "FT", "AET" and "PEN", void by "PST", "ABD", "AWD" and "WO",
    in any case and with white space around; any other status, or none, concludes nothing.
  */
  lemma ClassifiedBy(status: Option<string>)
    ensures Classify(status) == Some(TerminalResult) <==> Says(status, "FT") || Says(status, "AET") || Says(status, "PEN")
    ensures Classify(status) == Some(TerminalVoid) <==>
            Says(status, "PST") || Says(status, "ABD") || Says(status, "AWD") || Says(status, "WO")
  {
    if status.Some? {
      var s := Trim(status.value);
      FoldsUp(s, "FT");
      FoldsUp(s, "AET");
      FoldsUp(s, "PEN");
      FoldsUp(s, "PST");
      FoldsUp(s, "ABD");
      FoldsUp(s, "AWD");
      FoldsUp(s, "WO");
    }
  }

  // ------------------------------------------------------------- the protocol

  /** `Stuck`: ended holding the marker without a successful publish. */
  datatype Stage =
    | Reserving
    | Publishing
    | RollingBack
    | Published
    | Stuck
    | Ended

  datatype Call = Call(key: string, stage: Stage)

  /** `acked`: the publish was reported as done to the caller. */
  datatype Message = Message(key: string, acked: bool)

  datatype World = World(markers: set<string>, stream: seq<Message>, calls: seq<Call>)

  datatype Step =
    | Observe(providerId: string, fixtureId: string, status: Option<string>)
    | Reserve(i: nat)
    | ReserveThrows(i: nat, applied: bool)
    | BuildThrows(i: nat)
    | PublishOk(i: nat)
    | PublishThrows(i: nat, landed: bool)
    | ClearOk(i: nat)
    | ClearThrows(i: nat, applied: bool)
    | Dies(i: nat, landed: bool)

  const Empty := World({}, [], [])

  predicate At(w: World, i: nat, stage: Stage) { i < |w.calls| && w.calls[i].stage == stage }

  predicate Enabled(w: World, s: Step) {
    match s
    case Observe(_, _, _) => true
    case Reserve(i) => At(w, i, Reserving)
    case ReserveThrows(i, _) => At(w, i, Reserving)
    case BuildThrows(i) => At(w, i, Publishing)
    case PublishOk(i) => At(w, i, Publishing)
    case PublishThrows(i, _) => At(w, i, Publishing)
    case ClearOk(i) => At(w, i, RollingBack)
    case ClearThrows(i, _) => At(w, i, RollingBack)
    case Dies(i, landed) => At(w, i, Reserving) || At(w, i, Publishing) || At(w, i, RollingBack)
  }

  /** Call `i` moves to `stage`. */
  function Goes(w: World, i: nat, stage: Stage): World
    requires i < |w.calls|
  {
    w.(calls := w.calls[i := w.calls[i].(stage := stage)])
  }

  function Sent(w: World, i: nat, acked: bool): World
    requires i < |w.calls|
  {
    w.(stream := w.stream + [Message(w.calls[i].key, acked)])
  }

  function Next(w: World, s: Step): World
    requires Enabled(w, s)
  {
    match s
    case Observe(p, f, status) =>
      w.(calls := w.calls + [Call(Key(p, f), if Classify(status).None? then Ended else Reserving)])
    case Reserve(i) =>
      var key := w.calls[i].key;
      if key in w.markers then Goes(w, i, Ended)
      else Goes(w, i, Publishing).(markers := w.markers + {key})
    case ReserveThrows(i, applied) =>
      var key := w.calls[i].key;
      if key in w.markers || !applied then Goes(w, i, Ended)
      else Goes(w, i, Stuck).(markers := w.markers + {key})
    case BuildThrows(i) => Goes(w, i, Stuck)
    case PublishOk(i) => Goes(Sent(w, i, true), i, Published)
    case PublishThrows(i, landed) => Goes(if landed then Sent(w, i, false) else w, i, RollingBack)
    case ClearOk(i) => Goes(w, i, Ended).(markers := w.markers - {w.calls[i].key})
    case ClearThrows(i, applied) =>
      if applied then Goes(w, i, Ended).(markers := w.markers - {w.calls[i].key}) else Goes(w, i, Stuck)
    case Dies(i, landed) =>
      if w.calls[i].stage == Reserving then Goes(w, i, Ended)
      else Goes(if landed && w.calls[i].stage == Publishing then Sent(w, i, false) else w, i, Stuck)
  }

  predicate RunOk(w: World, steps: seq<Step>)
    decreases |steps|
  {
    |steps| == 0 || (Enabled(w, steps[0]) && RunOk(Next(w, steps[0]), steps[1..]))
  }

  function Run(w: World, steps: seq<Step>): World
    requires RunOk(w, steps)
    decreases |steps|
  {
    if |steps| == 0 then w else Run(Next(w, steps[0]), steps[1..])
  }

  // ------------------------------------------------------------- the invariant

  predicate Owns(c: Call) { c.stage.Publishing? || c.stage.RollingBack? || c.stage.Published? || c.stage.Stuck? }

  function Owners(key: string): Call -> int { (c: Call) => if c.key == key && Owns(c) then 1 else 0 }

  function Successes(key: string): Call -> int { (c: Call) => if c.key == key && c.stage.Published? then 1 else 0 }

  function AckedCopies(key: string): Message -> int { (m: Message) => if m.key == key && m.acked then 1 else 0 }

  ghost predicate OwnedOnce(w: World, key: string) {
    && Sum(w.calls, Owners(key)) == (if key in w.markers then 1 else 0)
    && Sum(w.stream, AckedCopies(key)) == Sum(w.calls, Successes(key))
  }

  /** A marker has exactly one owner, an absent marker none; acknowledged copies are successes. */
  ghost predicate Inv(w: World) { forall key :: OwnedOnce(w, key) }

  lemma OwnerIsAlone(w: World, i: nat)
    requires Inv(w) && i < |w.calls| && Owns(w.calls[i])
    ensures w.calls[i].key in w.markers
  {
    var key := w.calls[i].key;
    assert OwnedOnce(w, key);
    SumAtLeastMember(w.calls, i, Owners(key));
  }

  /** A step on call `i` changes no other call, and no call's fixture. */
  lemma CallsAfter(w: World, s: Step)
    requires Enabled(w, s) && !s.Observe?
    ensures s.i < |w.calls| == |Next(w, s).calls|
    ensures Next(w, s).calls == w.calls[s.i := Next(w, s).calls[s.i]] && Next(w, s).calls[s.i].key == w.calls[s.i].key
  {}

  /** A call takes its marker, keeps it or gives it up; it touches no other. */
  lemma MarkersAfter(w: World, s: Step, key: string)
    requires Enabled(w, s) && !s.Observe?
    requires Owns(w.calls[s.i]) ==> w.calls[s.i].key in w.markers
    ensures var after := Next(w, s);
            (if key in after.markers then 1 else 0) - (if key in w.markers then 1 else 0) ==
            Owners(key)(after.calls[s.i]) - Owners(key)(w.calls[s.i])
  {}

  lemma StreamAfter(w: World, s: Step, key: string)
    requires Enabled(w, s) && !s.Observe?
    ensures Sum(Next(w, s).stream, AckedCopies(key)) - Sum(w.stream, AckedCopies(key)) ==
            Successes(key)(Next(w, s).calls[s.i]) - Successes(key)(w.calls[s.i])
  {
    SumAppend(w.stream, Message(w.calls[s.i].key, true), AckedCopies(key));
    SumAppend(w.stream, Message(w.calls[s.i].key, false), AckedCopies(key));
  }

  lemma StepKeepsOwned(w: World, s: Step, key: string)
    requires Inv(w) && Enabled(w, s)
    ensures OwnedOnce(Next(w, s), key)
  {
    var after := Next(w, s);
    assert OwnedOnce(w, key);
    if s.Observe? {
      SumAppend(w.calls, after.calls[|w.calls|], Owners(key));
      SumAppend(w.calls, after.calls[|w.calls|], Successes(key));
    } else {
      if Owns(w.calls[s.i]) {
        OwnerIsAlone(w, s.i);
      }
      CallsAfter(w, s);
      MarkersAfter(w, s, key);
      StreamAfter(w, s, key);
      SumUpdate(w.calls, s.i, after.calls[s.i], Owners(key));
      SumUpdate(w.calls, s.i, after.calls[s.i], Successes(key));
    }
  }

  lemma {:induction false} RunKeepsInv(w: World, steps: seq<Step>)
    requires Inv(w) && RunOk(w, steps)
    ensures Inv(Run(w, steps))
    decreases |steps|
  {
    if |steps| > 0 {
      forall key
        ensures OwnedOnce(Next(w, steps[0]), key)
      {
        StepKeepsOwned(w, steps[0], key);
      }
      RunKeepsInv(Next(w, steps[0]), steps[1..]);
    }
  }

  lemma {:induction false} SuccessesAreOwners(calls: seq<Call>, key: string)
    ensures 0 <= Sum(calls, Successes(key)) <= Sum(calls, Owners(key))
  {
    if |calls| > 0 {
      SuccessesAreOwners(calls[..|calls| - 1], key);
    }
  }

  /**
    Emit once: over any interleaving of observations, with publishes, rollbacks and reservations
    failing anyhow, at most one publish of a fixture succeeds, and the stream holds at most one
    copy whose publish was acknowledged.
  */
  lemma {:induction false} EmitOnce(steps: seq<Step>, key: string)
    requires RunOk(Empty, steps)
    ensures Sum(Run(Empty, steps).calls, Successes(key)) <= 1
    ensures Sum(Run(Empty, steps).stream, AckedCopies(key)) <= 1
  {
    RunKeepsInv(Empty, steps);
    assert OwnedOnce(Run(Empty, steps), key);
    SuccessesAreOwners(Run(Empty, steps).calls, key);
  }

  ghost predicate OwnedBy(w: World, key: string, i: nat) {
    i < |w.calls| && w.calls[i].key == key && Owns(w.calls[i])
  }

  lemma {:induction false} SomeOwner(calls: seq<Call>, key: string) returns (i: nat)
    requires 0 < Sum(calls, Owners(key))
    ensures i < |calls| && calls[i].key == key && Owns(calls[i])
  {
    var n := |calls| - 1;
    if calls[n].key == key && Owns(calls[n]) {
      i := n;
    } else {
      i := SomeOwner(calls[..n], key);
    }
  }

  /**
    The marker is there exactly while one call for its fixture is publishing, is rolling back,
    has published, or got stuck with it.
  */
  lemma {:induction false} MarkerHasItsOwner(steps: seq<Step>, key: string)
    requires RunOk(Empty, steps)
    ensures var w := Run(Empty, steps);
            && (key in w.markers <==> exists i: nat :: OwnedBy(w, key, i))
            && (forall i: nat, j: nat :: OwnedBy(w, key, i) && OwnedBy(w, key, j) ==> i == j)
  {
    RunKeepsInv(Empty, steps);
    var w := Run(Empty, steps);
    assert OwnedOnce(w, key);
    if key in w.markers {
      var i := SomeOwner(w.calls, key);
      assert OwnedBy(w, key, i);
    }
    forall i: nat | OwnedBy(w, key, i)
      ensures key in w.markers
    {
      OwnerIsAlone(w, i);
    }
    forall i: nat, j: nat | OwnedBy(w, key, i) && OwnedBy(w, key, j)
      ensures i == j
    {
      if i < j {
        TwoOwners(w.calls, key, i, j);
      } else if j < i {
        TwoOwners(w.calls, key, j, i);
      }
    }
  }

  lemma {:induction false} TwoOwners(calls: seq<Call>, key: string, i: nat, j: nat)
    requires i < j < |calls| && calls[i].key == key == calls[j].key && Owns(calls[i]) && Owns(calls[j])
    ensures 2 <= Sum(calls, Owners(key))
  {
    assert calls == calls[..j] + calls[j..];
    SumConcat(calls[..j], calls[j..], Owners(key));
    SumAtLeastMember(calls[..j], i, Owners(key));
    SumAtLeastMember(calls[j..], 0, Owners(key));
  }

  // ----------------------------------------------- what a call may go through

  /** How far a call has come. */
  function Progress(stage: Stage): nat {
    match stage
    case Reserving => 0
    case Publishing => 1
    case RollingBack => 2
    case Published => 3
    case Stuck => 3
    case Ended => 3
  }

  /** The steps a call can take from each stage: its store or its stream may throw at every one, and its process die. */
  lemma StepsOfAStage(w: World, i: nat, applied: bool)
    requires i < |w.calls|
    ensures w.calls[i].stage == Reserving <==> Enabled(w, Reserve(i))
    ensures w.calls[i].stage == Reserving <==> Enabled(w, ReserveThrows(i, applied))
    ensures w.calls[i].stage == Publishing <==> Enabled(w, BuildThrows(i))
    ensures w.calls[i].stage == Publishing <==> Enabled(w, PublishOk(i))
    ensures w.calls[i].stage == Publishing <==> Enabled(w, PublishThrows(i, applied))
    ensures w.calls[i].stage == RollingBack <==> Enabled(w, ClearOk(i))
    ensures w.calls[i].stage == RollingBack <==> Enabled(w, ClearThrows(i, applied))
    ensures Progress(w.calls[i].stage) < 3 <==> Enabled(w, Dies(i, applied))
  {}

  /** Each step of a call takes it forward; so a call publishes at most once, and is over after at most three steps. */
  lemma CallsMoveForward(w: World, s: Step, i: nat)
    requires Enabled(w, s) && i < |w.calls|
    ensures i < |Next(w, s).calls|
    ensures if !s.Observe? && s.i == i then Progress(w.calls[i].stage) < Progress(Next(w, s).calls[i].stage)
            else Next(w, s).calls[i] == w.calls[i]
  {}

  /** Steps of call `i` in a run. */
  function StepsOf(steps: seq<Step>, i: nat): nat {
    if |steps| == 0 then 0 else StepsOf(steps[1..], i) + if !steps[0].Observe? && steps[0].i == i then 1 else 0
  }

  lemma {:induction false} CallsEnd(w: World, steps: seq<Step>, i: nat)
    requires RunOk(w, steps)
    ensures |w.calls| <= |Run(w, steps).calls|
    ensures i >= |Run(w, steps).calls| ==> StepsOf(steps, i) == 0
    ensures i < |Run(w, steps).calls| ==>
              StepsOf(steps, i) + (if i < |w.calls| then Progress(w.calls[i].stage) else 0) <= Progress(Run(w, steps).calls[i].stage) <= 3
    decreases |steps|
  {
    if |steps| > 0 {
      var after := Next(w, steps[0]);
      if i < |w.calls| {
        CallsMoveForward(w, steps[0], i);
      }
      CallsEnd(after, steps[1..], i);
    }
  }

  /** No observation of the fixture so far had a status that concludes a match. */
  ghost predicate NeverConcluded(steps: seq<Step>, key: string) {
    forall k :: 0 <= k < |steps| && steps[k].Observe? && Key(steps[k].providerId, steps[k].fixtureId) == key ==>
      !Concludes(steps[k].status)
  }

  ghost predicate Concludes(status: Option<string>) {
    || Says(status, "FT") || Says(status, "AET") || Says(status, "PEN")
    || Says(status, "PST") || Says(status, "ABD") || Says(status, "AWD") || Says(status, "WO")
  }

  ghost predicate Untouched(w: World, key: string) {
    && key !in w.markers && Sum(w.stream, Copies(key)) == 0
    && forall i :: 0 <= i < |w.calls| && w.calls[i].key == key ==> w.calls[i].stage == Ended
  }

  lemma ConcludesIs(status: Option<string>)
    ensures Classify(status).Some? <==> Concludes(status)
  {
    ClassifiedBy(status);
    if Classify(status).Some? {
      assert Classify(status).value.TerminalResult? || Classify(status).value.TerminalVoid?;
    }
  }

  lemma OnlyOthersMove(w: World, s: Step, key: string)
    requires Enabled(w, s) && Untouched(w, key) && !s.Observe?
    ensures w.calls[s.i].key != key
  {}

  lemma MoveLeavesUntouched(w: World, s: Step, key: string)
    requires Enabled(w, s) && Untouched(w, key) && !s.Observe?
    ensures Untouched(Next(w, s), key)
  {
    OnlyOthersMove(w, s, key);
    CallsAfter(w, s);
    OthersAddNothing(w, s, key);
    var after := Next(w, s);
    assert key !in after.markers;
    assert forall i :: 0 <= i < |w.calls| && i != s.i ==> after.calls[i] == w.calls[i];
  }

  lemma ObserveLeavesUntouched(w: World, s: Step, key: string)
    requires s.Observe? && Untouched(w, key) && (Key(s.providerId, s.fixtureId) == key ==> Classify(s.status).None?)
    ensures Untouched(Next(w, s), key)
  {}

  /** A fixture never observed with a concluding status has no marker and no copy on the stream, in any run. */
  lemma {:induction false} OnlyConcludedIsPublished(w: World, steps: seq<Step>, key: string)
    requires RunOk(w, steps) && Untouched(w, key) && NeverConcluded(steps, key)
    ensures Untouched(Run(w, steps), key)
    decreases |steps|
  {
    if |steps| > 0 {
      if steps[0].Observe? {
        ConcludesIs(steps[0].status);
        ObserveLeavesUntouched(w, steps[0], key);
      } else {
        MoveLeavesUntouched(w, steps[0], key);
      }
      assert NeverConcluded(steps[1..], key) by {
        forall k | 0 <= k < |steps[1..]| && steps[1..][k].Observe? && Key(steps[1..][k].providerId, steps[1..][k].fixtureId) == key
          ensures !Concludes(steps[1..][k].status)
        {
          assert steps[1..][k] == steps[k + 1];
        }
      }
      OnlyConcludedIsPublished(Next(w, steps[0]), steps[1..], key);
    }
  }

  // ------------------------------------------------- copies on the stream

  function Copies(key: string): Message -> int { (m: Message) => if m.key == key then 1 else 0 }

  /** A step whose copy of `key` lands although its call is never told so. */
  predicate LosesReply(w: World, s: Step, key: string)
    requires Enabled(w, s)
  {
    match s
    case PublishThrows(i, landed) => landed && w.calls[i].key == key
    case Dies(i, landed) => landed && w.calls[i].stage == Publishing && w.calls[i].key == key
    case _ => false
  }

  function LostReplies(w: World, steps: seq<Step>, key: string): nat
    requires RunOk(w, steps)
    decreases |steps|
  {
    if |steps| == 0 then 0
    else (if LosesReply(w, steps[0], key) then 1 else 0) + LostReplies(Next(w, steps[0]), steps[1..], key)
  }

  lemma StepCopies(w: World, s: Step, key: string)
    requires Enabled(w, s)
    ensures Sum(Next(w, s).stream, Copies(key)) == Sum(w.stream, Copies(key))
              + (Sum(Next(w, s).stream, AckedCopies(key)) - Sum(w.stream, AckedCopies(key)))
              + if LosesReply(w, s, key) then 1 else 0
  {
    if !s.Observe? {
      SumAppend(w.stream, Message(w.calls[s.i].key, true), Copies(key));
      SumAppend(w.stream, Message(w.calls[s.i].key, false), Copies(key));
      SumAppend(w.stream, Message(w.calls[s.i].key, true), AckedCopies(key));
      SumAppend(w.stream, Message(w.calls[s.i].key, false), AckedCopies(key));
    }
  }

  lemma {:induction false} RunCopies(w: World, steps: seq<Step>, key: string)
    requires RunOk(w, steps)
    ensures Sum(Run(w, steps).stream, Copies(key)) - Sum(Run(w, steps).stream, AckedCopies(key)) ==
            Sum(w.stream, Copies(key)) - Sum(w.stream, AckedCopies(key)) + LostReplies(w, steps, key)
    decreases |steps|
  {
    if |steps| > 0 {
      StepCopies(w, steps[0], key);
      RunCopies(Next(w, steps[0]), steps[1..], key);
    }
  }

  /**
    Every run's copies of a fixture are its one success, if any, and one per lost reply. So the
    stream holds at most one copy when no reply is lost, and more only by lost replies.
  */
  lemma {:induction false} CopiesAreSuccessAndLostReplies(steps: seq<Step>, key: string)
    requires RunOk(Empty, steps)
    ensures var w := Run(Empty, steps);
            && Sum(w.stream, Copies(key)) == Sum(w.calls, Successes(key)) + LostReplies(Empty, steps, key)
            && (LostReplies(Empty, steps, key) == 0 ==> Sum(w.stream, Copies(key)) <= 1)
  {
    RunKeepsInv(Empty, steps);
    RunCopies(Empty, steps, key);
    assert OwnedOnce(Run(Empty, steps), key);
    EmitOnce(steps, key);
  }

  // ------------------------------------------------------- stuck, and unstuck

  /** The steps after which a call never gives its marker back although it has not published. */
  predicate Strands(w: World, s: Step)
    requires Enabled(w, s)
  {
    match s
    case ReserveThrows(i, applied) => applied && w.calls[i].key !in w.markers
    case BuildThrows(_) => true
    case ClearThrows(_, applied) => !applied
    case Dies(i, _) => w.calls[i].stage != Reserving
    case _ => false
  }

  /** Some step of the run strands the marker of `key`. */
  predicate StrandsSometime(w: World, steps: seq<Step>, key: string)
    requires RunOk(w, steps)
    decreases |steps|
  {
    |steps| > 0 && ((Strands(w, steps[0]) && w.calls[steps[0].i].key == key) || StrandsSometime(Next(w, steps[0]), steps[1..], key))
  }

  ghost predicate StuckBy(w: World, key: string, i: nat) {
    i < |w.calls| && w.calls[i].key == key && w.calls[i].stage.Stuck?
  }

  ghost predicate SomeStuck(w: World, key: string) { exists i: nat :: StuckBy(w, key, i) }

  lemma StepSticks(w: World, s: Step, key: string)
    requires Enabled(w, s)
    ensures SomeStuck(Next(w, s), key) <==> SomeStuck(w, key) || (Strands(w, s) && w.calls[s.i].key == key)
  {
    var after := Next(w, s);
    if SomeStuck(w, key) {
      var i: nat :| StuckBy(w, key, i);
      assert StuckBy(after, key, i);
    }
    if Strands(w, s) && w.calls[s.i].key == key {
      assert StuckBy(after, key, s.i);
    }
    if SomeStuck(after, key) {
      var i: nat :| StuckBy(after, key, i);
      if i < |w.calls| && w.calls[i].stage.Stuck? {
        assert StuckBy(w, key, i);
      }
    }
  }

  lemma {:induction false} RunSticks(w: World, steps: seq<Step>, key: string)
    requires RunOk(w, steps)
    ensures SomeStuck(Run(w, steps), key) <==> SomeStuck(w, key) || StrandsSometime(w, steps, key)
    decreases |steps|
  {
    if |steps| > 0 {
      StepSticks(w, steps[0], key);
      RunSticks(Next(w, steps[0]), steps[1..], key);
    }
  }

  predicate InFlight(c: Call) { c.stage.Publishing? || c.stage.RollingBack? }

  ghost predicate NoneInFlight(w: World, key: string) {
    forall i :: 0 <= i < |w.calls| && w.calls[i].key == key ==> !InFlight(w.calls[i])
  }

  lemma {:induction false} NoSuccess(calls: seq<Call>, key: string)
    ensures Sum(calls, Successes(key)) == 0 <==> forall i :: 0 <= i < |calls| && calls[i].key == key ==> !calls[i].stage.Published?
  {
    if |calls| > 0 {
      NoSuccess(calls[..|calls| - 1], key);
      SuccessesAreOwners(calls[..|calls| - 1], key);
    }
  }

  /** The marker stands, and nobody is publishing, rolling back or has published. */
  ghost predicate LeftBehind(w: World, key: string) {
    key in w.markers && NoneInFlight(w, key) && Sum(w.calls, Successes(key)) == 0
  }

  /**
    A marker is left behind exactly when some step of the run stranded it; and it stands for a
    fixture of which the stream holds nothing exactly when, besides, no copy landed unacknowledged.
  */
  lemma {:induction false} MarkerLeftBehindIff(steps: seq<Step>, key: string)
    requires RunOk(Empty, steps)
    ensures var w := Run(Empty, steps);
            && (LeftBehind(w, key) <==> StrandsSometime(Empty, steps, key))
            && (key in w.markers && NoneInFlight(w, key) && Sum(w.stream, Copies(key)) == 0 <==>
                StrandsSometime(Empty, steps, key) && LostReplies(Empty, steps, key) == 0)
  {
    var w := Run(Empty, steps);
    MarkerHasItsOwner(steps, key);
    RunSticks(Empty, steps, key);
    NoSuccess(w.calls, key);
    SuccessesAreOwners(w.calls, key);
    CopiesAreSuccessAndLostReplies(steps, key);
    if key in w.markers {
      var i: nat :| OwnedBy(w, key, i);
      if w.calls[i].stage.Stuck? {
        assert StuckBy(w, key, i);
      }
    }
    if SomeStuck(w, key) {
      var i: nat :| StuckBy(w, key, i);
      assert OwnedBy(w, key, i);
      forall j | 0 <= j < |w.calls| && w.calls[j].key == key && Owns(w.calls[j])
        ensures j == i
      {
        assert OwnedBy(w, key, j);
      }
    }
  }

  /**
    Where nothing strands it, the marker is there exactly while a publish is in flight or has
    succeeded.
  */
  lemma {:induction false} MarkerMeansInFlightOrDone(steps: seq<Step>, key: string)
    requires RunOk(Empty, steps) && !StrandsSometime(Empty, steps, key)
    ensures var w := Run(Empty, steps);
            key in w.markers <==>
            exists i :: 0 <= i < |w.calls| && w.calls[i].key == key && (InFlight(w.calls[i]) || w.calls[i].stage.Published?)
  {
    var w := Run(Empty, steps);
    MarkerLeftBehindIff(steps, key);
    MarkerHasItsOwner(steps, key);
    NoSuccess(w.calls, key);
    forall i | 0 <= i < |w.calls| && w.calls[i].key == key && (InFlight(w.calls[i]) || w.calls[i].stage.Published?)
      ensures OwnedBy(w, key, i)
    {}
  }

  /** One observation, alone, whose publish works. */
  function SoloRun(w: World, providerId: string, fixtureId: string, status: Option<string>): seq<Step> {
    [Observe(providerId, fixtureId, status), Reserve(|w.calls|), PublishOk(|w.calls|)]
  }

  /**
    Never blocked for good: while no call owns the fixture's marker (in particular after a failed
    publish was rolled back), a terminal observation can publish it, and any other state of the
    fixture refuses.
  */
  lemma {:induction false} CanPublishIffUnowned(steps: seq<Step>, providerId: string, fixtureId: string, status: Option<string>)
    requires RunOk(Empty, steps) && Classify(status).Some?
    ensures var w := Run(Empty, steps);
            RunOk(w, SoloRun(w, providerId, fixtureId, status)) <==> !exists i: nat :: OwnedBy(w, Key(providerId, fixtureId), i)
  {
    var w := Run(Empty, steps);
    var solo := SoloRun(w, providerId, fixtureId, status);
    MarkerHasItsOwner(steps, Key(providerId, fixtureId));
    var w1 := Next(w, solo[0]);
    assert Enabled(w1, solo[1]);
    var w2 := Next(w1, solo[1]);
    assert solo[1..][0] == solo[1] && solo[1..][1..] == [solo[2]];
    assert RunOk(w1, solo[1..]) <==> RunOk(w2, [solo[2]]);
    assert RunOk(w2, [solo[2]]) <==> Enabled(w2, solo[2]);
  }

  // ------------------------------------------------ can another copy appear

  /** The fixture's owner has published or is stuck: it keeps the marker for good. */
  ghost predicate ClosedBy(w: World, key: string, i: nat) {
    i < |w.calls| && w.calls[i].key == key && (w.calls[i].stage.Published? || w.calls[i].stage.Stuck?)
  }

  ghost predicate Closed(w: World, key: string) { exists i: nat :: ClosedBy(w, key, i) }

  lemma ClosedStays(w: World, s: Step, key: string)
    requires Enabled(w, s) && Closed(w, key)
    ensures Closed(Next(w, s), key)
  {
    var i: nat :| ClosedBy(w, key, i);
    assert ClosedBy(Next(w, s), key, i);
  }

  /** Only a call that is publishing puts a copy of its fixture on the stream. */
  lemma OthersAddNothing(w: World, s: Step, key: string)
    requires Enabled(w, s) && (!s.Observe? ==> w.calls[s.i].key != key || !w.calls[s.i].stage.Publishing?)
    ensures Sum(Next(w, s).stream, Copies(key)) == Sum(w.stream, Copies(key))
  {
    if !s.Observe? {
      SumAppend(w.stream, Message(w.calls[s.i].key, true), Copies(key));
      SumAppend(w.stream, Message(w.calls[s.i].key, false), Copies(key));
    }
  }

  lemma ClosedStepAddsNothing(w: World, s: Step, key: string)
    requires Inv(w) && Enabled(w, s) && Closed(w, key)
    ensures Closed(Next(w, s), key) && Sum(Next(w, s).stream, Copies(key)) == Sum(w.stream, Copies(key))
  {
    var i: nat :| ClosedBy(w, key, i);
    assert OwnedOnce(w, key);
    ClosedStays(w, s, key);
    if !s.Observe? && w.calls[s.i].key == key && w.calls[s.i].stage.Publishing? {
      TwoOwners(w.calls, key, if s.i < i then s.i else i, if s.i < i then i else s.i);
      assert false;
    }
    OthersAddNothing(w, s, key);
  }

  lemma {:induction false} ClosedRunAddsNothing(w: World, steps: seq<Step>, key: string)
    requires Inv(w) && RunOk(w, steps) && Closed(w, key)
    ensures Sum(Run(w, steps).stream, Copies(key)) == Sum(w.stream, Copies(key))
    decreases |steps|
  {
    if |steps| > 0 {
      ClosedStepAddsNothing(w, steps[0], key);
      forall k
        ensures OwnedOnce(Next(w, steps[0]), k)
      {
        StepKeepsOwned(w, steps[0], k);
      }
      ClosedRunAddsNothing(Next(w, steps[0]), steps[1..], key);
    }
  }

  ghost predicate Adds(w: World, steps: seq<Step>, key: string) {
    RunOk(w, steps) && Sum(w.stream, Copies(key)) < Sum(Run(w, steps).stream, Copies(key))
  }

  /** A call about to publish can. */
  lemma PublisherAdds(w: World, key: string, i: nat)
    requires OwnedBy(w, key, i) && w.calls[i].stage.Publishing?
    ensures Adds(w, [PublishOk(i)], key)
  {
    Prepend(w, PublishOk(i), []);
    assert [PublishOk(i)] + [] == [PublishOk(i)];
    SumAppend(w.stream, Message(key, true), Copies(key));
  }

  lemma UnmarkedAdds(w: World, providerId: string, fixtureId: string, status: Option<string>)
    requires Classify(status).Some? && Key(providerId, fixtureId) !in w.markers
    ensures Adds(w, SoloRun(w, providerId, fixtureId, status), Key(providerId, fixtureId))
  {
    SoloPublishes(w, providerId, fixtureId, status);
    SumAppend(w.stream, Message(Key(providerId, fixtureId), true), Copies(Key(providerId, fixtureId)));
  }

  lemma RolledBackAdds(w: World, providerId: string, fixtureId: string, status: Option<string>, i: nat) returns (more: seq<Step>)
    requires Classify(status).Some? && OwnedBy(w, Key(providerId, fixtureId), i) && w.calls[i].stage.RollingBack?
    ensures Adds(w, more, Key(providerId, fixtureId))
  {
    var after := Next(w, ClearOk(i));
    UnmarkedAdds(after, providerId, fixtureId, status);
    var solo := SoloRun(after, providerId, fixtureId, status);
    Prepend(w, ClearOk(i), solo);
    more := [ClearOk(i)] + solo;
  }

  /**
    After any run, a further copy of a fixture can still appear on the stream exactly while no
    call has published it or got stuck with its marker. So a copy that landed without its reply
    can be followed by another until then, and by none after.
  */
  lemma {:induction false} AnotherCopyIff(steps: seq<Step>, providerId: string, fixtureId: string, status: Option<string>)
    requires RunOk(Empty, steps) && Classify(status).Some?
    ensures var w, key := Run(Empty, steps), Key(providerId, fixtureId);
            (exists more :: Adds(w, more, key)) <==> !Closed(w, key)
  {
    var w, key := Run(Empty, steps), Key(providerId, fixtureId);
    RunKeepsInv(Empty, steps);
    MarkerHasItsOwner(steps, key);
    if Closed(w, key) {
      forall more | RunOk(w, more)
        ensures !Adds(w, more, key)
      {
        ClosedRunAddsNothing(w, more, key);
      }
    } else if key in w.markers {
      var i: nat :| OwnedBy(w, key, i);
      assert !ClosedBy(w, key, i);
      if w.calls[i].stage.Publishing? {
        PublisherAdds(w, key, i);
      } else {
        var more := RolledBackAdds(w, providerId, fixtureId, status, i);
      }
    } else {
      UnmarkedAdds(w, providerId, fixtureId, status);
    }
  }

  /** The witness: a publish that fails after its copy landed is rolled back and published again, two copies, one acknowledged. */
  lemma LostReplyDuplicates(providerId: string, fixtureId: string)
    ensures exists steps :: RunOk(Empty, steps) && !StrandsSometime(Empty, steps, Key(providerId, fixtureId)) &&
              Run(Empty, steps).stream == [Message(Key(providerId, fixtureId), false), Message(Key(providerId, fixtureId), true)]
  {
    var k := Key(providerId, fixtureId);
    var ft := Some("FT");
    assert Trim("FT") == "FT" && Upper("FT") == "FT";
    var tail := [Observe(providerId, fixtureId, ft), Reserve(1), PublishOk(1)];
    var w4 := World({}, [Message(k, false)], [Call(k, Ended)]);
    assert RunSolo(w4, providerId, fixtureId, ft, tail) by { SoloPublishes(w4, providerId, fixtureId, ft); }
    LostReplyRollsBack(k, tail);
    var lost := [PublishThrows(0, true)] + ([ClearOk(0)] + tail);
    ObservedReserves(providerId, fixtureId, ft, lost);
    PublishedIsNotStranded([Observe(providerId, fixtureId, ft)] + ([Reserve(0)] + lost), k, 1);
  }

  lemma {:induction false} LostReplyRollsBack(k: string, rest: seq<Step>)
    requires RunOk(World({}, [Message(k, false)], [Call(k, Ended)]), rest)
    ensures var w, steps := World({k}, [], [Call(k, Publishing)]), [PublishThrows(0, true)] + ([ClearOk(0)] + rest);
            RunOk(w, steps) && Run(w, steps) == Run(World({}, [Message(k, false)], [Call(k, Ended)]), rest)
  {
    var lost := World({k}, [Message(k, false)], [Call(k, RollingBack)]);
    assert Next(lost, ClearOk(0)) == World({}, [Message(k, false)], [Call(k, Ended)]);
    Prepend(lost, ClearOk(0), rest);
    var w := World({k}, [], [Call(k, Publishing)]);
    assert Next(w, PublishThrows(0, true)) == lost;
    Prepend(w, PublishThrows(0, true), [ClearOk(0)] + rest);
  }

  lemma {:induction false} ObservedReserves(providerId: string, fixtureId: string, status: Option<string>, rest: seq<Step>)
    requires Classify(status).Some?
    requires RunOk(World({Key(providerId, fixtureId)}, [], [Call(Key(providerId, fixtureId), Publishing)]), rest)
    ensures var steps := [Observe(providerId, fixtureId, status)] + ([Reserve(0)] + rest);
            RunOk(Empty, steps) && Run(Empty, steps) == Run(World({Key(providerId, fixtureId)}, [], [Call(Key(providerId, fixtureId), Publishing)]), rest)
  {
    var k := Key(providerId, fixtureId);
    var seen := World({}, [], [Call(k, Reserving)]);
    assert Next(seen, Reserve(0)) == World({k}, [], [Call(k, Publishing)]);
    Prepend(seen, Reserve(0), rest);
    assert Next(Empty, Observe(providerId, fixtureId, status)) == seen;
    Prepend(Empty, Observe(providerId, fixtureId, status), [Reserve(0)] + rest);
  }

  lemma {:induction false} PublishedIsNotStranded(steps: seq<Step>, key: string, i: nat)
    requires RunOk(Empty, steps) && i < |Run(Empty, steps).calls|
    requires Run(Empty, steps).calls[i] == Call(key, Published)
    ensures !StrandsSometime(Empty, steps, key)
  {
    MarkerLeftBehindIff(steps, key);
    NoSuccess(Run(Empty, steps).calls, key);
  }

  ghost predicate RunSolo(w: World, providerId: string, fixtureId: string, status: Option<string>, steps: seq<Step>) {
    && RunOk(w, steps)
    && Run(w, steps).stream == w.stream + [Message(Key(providerId, fixtureId), true)]
    && Run(w, steps).calls == w.calls + [Call(Key(providerId, fixtureId), Published)]
  }

  lemma SoloPublishes(w: World, providerId: string, fixtureId: string, status: Option<string>)
    requires Classify(status).Some? && Key(providerId, fixtureId) !in w.markers
    ensures RunSolo(w, providerId, fixtureId, status, SoloRun(w, providerId, fixtureId, status))
  {
    var solo := SoloRun(w, providerId, fixtureId, status);
    var w1 := Next(w, solo[0]);
    var w2 := Next(w1, solo[1]);
    var w3 := Next(w2, solo[2]);
    Prepend(w2, solo[2], []);
    assert [solo[2]] + [] == [solo[2]];
    Prepend(w1, solo[1], [solo[2]]);
    Prepend(w, solo[0], [solo[1], solo[2]]);
    assert [solo[0]] + [solo[1], solo[2]] == solo && [solo[1]] + [solo[2]] == [solo[1], solo[2]];
  }

  lemma {:induction false} Prepend(w: World, s: Step, rest: seq<Step>)
    requires Enabled(w, s) && RunOk(Next(w, s), rest)
    ensures RunOk(w, [s] + rest) && Run(w, [s] + rest) == Run(Next(w, s), rest)
  {
    assert ([s] + rest)[1..] == rest;
  }

  // -------------------------------------------------- one call, in sequence

  /** The published fact says how the match was classified. */
  datatype Outcome = WasPublished(classification: Classification) | AlreadyEmitted | NotTerminal | PublishFailed

  datatype PublishReply = Accepted | Threw(landed: bool)

  datatype Metrics = Metrics(published: nat, alreadyEmitted: nat, notTerminal: nat, failed: nat)

  function Recorded(m: Metrics, o: Outcome): Metrics {
    match o
    case WasPublished(_) => m.(published := m.published + 1)
    case AlreadyEmitted => m.(alreadyEmitted := m.alreadyEmitted + 1)
    case NotTerminal => m.(notTerminal := m.notTerminal + 1)
    case PublishFailed => m.(failed := m.failed + 1)
  }

  class MatchConcludedPublisher {
    const emitted: InMemoryEmittedFixtureStore
    var stream: seq<Message>
    var metrics: Metrics

    constructor (emitted: InMemoryEmittedFixtureStore)
      ensures this.emitted == emitted && stream == [] && metrics == Metrics(0, 0, 0, 0)
    {
      this.emitted := emitted;
      stream := [];
      metrics := Metrics(0, 0, 0, 0);
    }

    /**
      With nothing else running: only a terminal status of an unmarked fixture reaches the stream;
      success leaves the marker, failure leaves none, and every other fixture's marker is kept
      unless the store was full.
    */
    method Observe(providerId: string, fixtureId: string, status: Option<string>, reply: PublishReply) returns (outcome: Outcome)
      requires emitted.Valid()
      modifies this, emitted
      ensures emitted.Valid() && metrics == Recorded(old(metrics), outcome)
      ensures metrics.published == old(metrics.published) + if outcome.WasPublished? then 1 else 0
      ensures metrics.alreadyEmitted == old(metrics.alreadyEmitted) + if outcome == AlreadyEmitted then 1 else 0
      ensures metrics.notTerminal == old(metrics.notTerminal) + if outcome == NotTerminal then 1 else 0
      ensures metrics.failed == old(metrics.failed) + if outcome == PublishFailed then 1 else 0
      ensures outcome == NotTerminal <==> Classify(status).None?
      ensures outcome.WasPublished? ==>
                (outcome.classification == TerminalResult <==> Says(status, "FT") || Says(status, "AET") || Says(status, "PEN"))
      ensures outcome.WasPublished? ==>
                (outcome.classification == TerminalVoid <==> Says(status, "PST") || Says(status, "ABD") || Says(status, "AWD") || Says(status, "WO"))
      ensures outcome == AlreadyEmitted <==> Classify(status).Some? && Key(providerId, fixtureId) in old(emitted.seen)
      ensures outcome == PublishFailed ==> reply.Threw? && Key(providerId, fixtureId) !in emitted.seen
      ensures outcome.WasPublished? ==> reply.Accepted? && Key(providerId, fixtureId) in emitted.seen
      ensures stream == old(stream) +
                (if outcome.WasPublished? || (outcome == PublishFailed && reply.landed)
                 then [Message(Key(providerId, fixtureId), reply.Accepted?)] else [])
      ensures outcome in {NotTerminal, AlreadyEmitted} ==> emitted.seen == old(emitted.seen)
      ensures |old(emitted.seen)| < emitted.max ==>
        forall k :: k != Key(providerId, fixtureId) ==> (k in emitted.seen <==> k in old(emitted.seen))
    {
      var classification := Classify(status);
      ClassifiedBy(status);
      if classification == None {
        metrics := Recorded(metrics, NotTerminal);
        return NotTerminal;
      }
      var reserved := emitted.MarkEmitted(providerId, fixtureId);
      if !reserved {
        metrics := Recorded(metrics, AlreadyEmitted);
        return AlreadyEmitted;
      }
      match reply {
        case Accepted =>
          stream := stream + [Message(Key(providerId, fixtureId), true)];
          outcome := WasPublished(classification.value);
        case Threw(landed) =>
          if landed {
            stream := stream + [Message(Key(providerId, fixtureId), false)];
          }
          emitted.ClearEmitted(providerId, fixtureId);
          outcome := PublishFailed;
      }
      metrics := Recorded(metrics, outcome);
    }
  }
}
