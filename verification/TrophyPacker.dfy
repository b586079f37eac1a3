/**
  `packTrophyRows` (src/workflows/provider-enrichment-units.ts): trophy rows split into
  ingest requests. A subject is never split; an over-full subject is trimmed first.
*/
module TrophyPacker {
  import opened Common
  import opened Sums

  const UNIT_INGEST_BATCH_SIZE: nat := 500

  datatype Trophy = Trophy(competitionName: string, country: string, seasonText: string, place: string)

  datatype Row = Row(subject: string, trophies: seq<Trophy>)

  datatype Batch = Batch(rows: seq<Row>, start: nat)

  // --------------------------------------------------------------- trimming

  function TrophyIdentity(t: Trophy): string {
    Trim(t.competitionName) + ['\0'] + Trim(t.country) + ['\0'] + Trim(t.seasonText) + ['\0'] + Trim(t.place)
  }

  predicate IsWinner(t: Trophy) { Lower(Trim(t.place)) == "winner" }

  /** The place is "winner", in any case and with white space around. */
  ghost predicate Won(t: Trophy) { SameButCase(Trim(t.place), "winner") }

  lemma WinnerIs(t: Trophy)
    ensures IsWinner(t) <==> Won(t)
  {
    FoldsDown(Trim(t.place), "winner");
  }

  /** Competition, country, season and place are the same, white space around them aside. */
  predicate SameFields(t: Trophy, u: Trophy) {
    && Trim(t.competitionName) == Trim(u.competitionName) && Trim(t.country) == Trim(u.country)
    && Trim(t.seasonText) == Trim(u.seasonText) && Trim(t.place) == Trim(u.place)
  }

  /** No field holds the character that separates them in an identity. */
  predicate Plain(t: Trophy) {
    '\0' !in Trim(t.competitionName) && '\0' !in Trim(t.country) && '\0' !in Trim(t.seasonText) && '\0' !in Trim(t.place)
  }

  lemma SplitAtZero(a: string, b: string, x: string, y: string)
    requires '\0' !in a && '\0' !in b && a + ['\0'] + x == b + ['\0'] + y
    ensures a == b && x == y
  {
    var s := a + ['\0'] + x;
    forall i | 0 <= i < |a|
      ensures s[i] != '\0'
    {
      assert s[i] == a[i];
    }
    forall i | 0 <= i < |b|
      ensures s[i] != '\0'
    {
      assert s[i] == b[i];
    }
    assert s[|a|] == '\0' && s[|b|] == '\0';
    assert |a| == |b|;
    assert s[..|a|] == a && s[..|b|] == b;
    assert s[|a| + 1..] == x && s[|b| + 1..] == y;
  }

  function Joined(a: string, b: string, c: string, d: string): string { a + ['\0'] + b + ['\0'] + c + ['\0'] + d }

  lemma JoinedApart(a: string, b: string, c: string, d: string, k: string, l: string, m: string, n: string)
    requires '\0' !in a + b + c && '\0' !in k + l + m && Joined(a, b, c, d) == Joined(k, l, m, n)
    ensures a == k && b == l && c == m && d == n
  {
    var p, q := c + ['\0'] + d, m + ['\0'] + n;
    var x, y := b + ['\0'] + p, l + ['\0'] + q;
    assert Joined(a, b, c, d) == a + ['\0'] + x && Joined(k, l, m, n) == k + ['\0'] + y;
    SplitAtZero(a, k, x, y);
    SplitAtZero(b, l, p, q);
    SplitAtZero(c, m, d, n);
  }

  lemma IdentityIsJoined(t: Trophy)
    ensures TrophyIdentity(t) == Joined(Trim(t.competitionName), Trim(t.country), Trim(t.seasonText), Trim(t.place))
  {}

  /** Trophies with the same fields have one identity, and plain trophies with one identity have the same fields. */
  lemma IdentityIs(t: Trophy, u: Trophy)
    ensures SameFields(t, u) ==> TrophyIdentity(t) == TrophyIdentity(u)
    ensures Plain(t) && Plain(u) && TrophyIdentity(t) == TrophyIdentity(u) ==> SameFields(t, u)
  {
    IdentityIsJoined(t);
    IdentityIsJoined(u);
    if Plain(t) && Plain(u) && TrophyIdentity(t) == TrophyIdentity(u) {
      JoinedApart(Trim(t.competitionName), Trim(t.country), Trim(t.seasonText), Trim(t.place),
                  Trim(u.competitionName), Trim(u.country), Trim(u.seasonText), Trim(u.place));
    }
  }

  function Identities(ts: seq<Trophy>): set<string> {
    set t | t in ts :: TrophyIdentity(t)
  }

  /** The first of each identity, in order. */
  function Unique(ts: seq<Trophy>): seq<Trophy> {
    if |ts| == 0 then []
    else
      var rest, last := ts[..|ts| - 1], ts[|ts| - 1];
      if TrophyIdentity(last) in Identities(rest) then Unique(rest) else Unique(rest) + [last]
  }

  function WinnerCount(): Trophy -> int { (t: Trophy) => if IsWinner(t) then 1 else 0 }

  function OtherCount(): Trophy -> int { (t: Trophy) => if IsWinner(t) then 0 else 1 }

  /** Winners while `winners` last, and others while `others` last, in order. */
  function Quota(ts: seq<Trophy>, winners: int, others: int): seq<Trophy> {
    if |ts| == 0 then []
    else
      var rest, last := ts[..|ts| - 1], ts[|ts| - 1];
      var fits := if IsWinner(last) then Sum(ts, WinnerCount()) <= winners else Sum(ts, OtherCount()) <= others;
      Quota(rest, winners, others) + (if fits then [last] else [])
  }

  function Trimmed(ts: seq<Trophy>, maxTrophies: nat): seq<Trophy> {
    if |ts| <= maxTrophies then ts else BestOf(Unique(ts), maxTrophies)
  }

  /** All of a subject's distinct trophies if they fit, else the winners first. */
  function BestOf(unique: seq<Trophy>, maxTrophies: nat): seq<Trophy> {
    if |unique| <= maxTrophies then unique
    else Quota(unique, maxTrophies, Max0(maxTrophies - Sum(unique, WinnerCount())))
  }

  method UniqueTrophies(ts: seq<Trophy>) returns (unique: seq<Trophy>)
    ensures unique == Unique(ts)
  {
    var seen: set<string> := {};
    unique := [];
    for i := 0 to |ts|
      invariant seen == Identities(ts[..i])
      invariant unique == Unique(ts[..i])
    {
      UniqueStep(ts, i);
      var identity := TrophyIdentity(ts[i]);
      if identity !in seen {
        seen := seen + {identity};
        unique := unique + [ts[i]];
      }
    }
    assert ts[..|ts|] == ts;
  }

  lemma IdentitiesAppend(ts: seq<Trophy>, t: Trophy)
    ensures Identities(ts + [t]) == Identities(ts) + {TrophyIdentity(t)}
  {}

  lemma UniqueStep(ts: seq<Trophy>, i: nat)
    requires i < |ts|
    ensures Identities(ts[..i + 1]) == Identities(ts[..i]) + {TrophyIdentity(ts[i])}
    ensures Unique(ts[..i + 1]) == Unique(ts[..i]) + if TrophyIdentity(ts[i]) in Identities(ts[..i]) then [] else [ts[i]]
  {
    assert ts[..i + 1] == ts[..i] + [ts[i]] && ts[..i + 1][..i] == ts[..i];
    IdentitiesAppend(ts[..i], ts[i]);
  }

  method CountWinners(ts: seq<Trophy>) returns (winners: int)
    ensures winners == Sum(ts, WinnerCount())
  {
    winners := 0;
    for i := 0 to |ts|
      invariant winners == Sum(ts[..i], WinnerCount())
    {
      assert ts[..i + 1][..i] == ts[..i];
      if IsWinner(ts[i]) {
        winners := winners + 1;
      }
    }
    assert ts[..|ts|] == ts;
  }

  method KeepQuota(unique: seq<Trophy>, winners: int, others: int) returns (keep: seq<Trophy>)
    ensures keep == Quota(unique, winners, others)
  {
    var winnersLeft, othersLeft := winners, others;
    keep := [];
    for i := 0 to |unique|
      invariant winnersLeft == winners - Sum(unique[..i], WinnerCount())
      invariant othersLeft == others - Sum(unique[..i], OtherCount())
      invariant keep == Quota(unique[..i], winners, others)
    {
      assert unique[..i + 1][..i] == unique[..i];
      if IsWinner(unique[i]) {
        winnersLeft := winnersLeft - 1;
        if winnersLeft >= 0 {
          keep := keep + [unique[i]];
        }
      } else {
        othersLeft := othersLeft - 1;
        if othersLeft >= 0 {
          keep := keep + [unique[i]];
        }
      }
    }
    assert unique[..|unique|] == unique;
  }

  method KeepBest(unique: seq<Trophy>, maxTrophies: nat) returns (keep: seq<Trophy>)
    ensures keep == BestOf(unique, maxTrophies)
  {
    keep := unique;
    if |keep| > maxTrophies {
      var winners := CountWinners(keep);
      var othersLeft := Max0(maxTrophies - winners);
      keep := KeepQuota(keep, maxTrophies, othersLeft);
    }
  }

  method TrimTrophies(ts: seq<Trophy>, maxTrophies: nat) returns (keep: seq<Trophy>)
    ensures keep == Trimmed(ts, maxTrophies)
  {
    if |ts| <= maxTrophies {
      return ts;
    }
    var unique := UniqueTrophies(ts);
    keep := KeepBest(unique, maxTrophies);
  }

  // ---------------------------------------------------------------- packing

  function TrimRow(row: Row, maxTrophies: nat): Row {
    row.(trophies := Trimmed(row.trophies, maxTrophies))
  }

  function TrimRows(rows: seq<Row>, maxTrophies: nat): seq<Row> {
    if |rows| == 0 then [] else TrimRows(rows[..|rows| - 1], maxTrophies) + [TrimRow(rows[|rows| - 1], maxTrophies)]
  }

  function Size(): Row -> int { (row: Row) => |row.trophies| }

  /** How many trophies trimming takes from a row. */
  function Cut(maxTrophies: nat): Row -> int { (row: Row) => |row.trophies| - |Trimmed(row.trophies, maxTrophies)| }

  function Flatten(batches: seq<Batch>): seq<Row> {
    if |batches| == 0 then [] else Flatten(batches[..|batches| - 1]) + batches[|batches| - 1].rows
  }

  /** Within both limits, and not empty. */
  predicate BatchOk(b: Batch, maxTrophies: nat) {
    0 < |b.rows| <= 500 && Sum(b.rows, Size()) <= maxTrophies
  }

  /** The next row would not have fitted. */
  predicate FullBefore(b: Batch, row: Row, maxTrophies: nat) {
    maxTrophies < Sum(b.rows, Size()) + |row.trophies| || 500 <= |b.rows|
  }

  /** Batch `i` keeps both limits, says where it starts, and could not have joined the one before. */
  ghost predicate BatchAt(batches: seq<Batch>, i: nat, maxTrophies: nat)
    requires i < |batches|
  {
    && BatchOk(batches[i], maxTrophies)
    && batches[i].start == |Flatten(batches[..i])|
    && (0 < i ==> FullBefore(batches[i - 1], batches[i].rows[0], maxTrophies))
  }

  /** Batches that partition `rows` in order, each as long as it could be. */
  ghost predicate Packing(batches: seq<Batch>, rows: seq<Row>, maxTrophies: nat) {
    Flatten(batches) == rows && forall i :: 0 <= i < |batches| ==> BatchAt(batches, i, maxTrophies)
  }

  lemma {:induction false} FlattenAppend(batches: seq<Batch>, b: Batch)
    ensures Flatten(batches + [b]) == Flatten(batches) + b.rows
  {
    assert (batches + [b])[..|batches|] == batches;
  }

  lemma PackingAppend(batches: seq<Batch>, rows: seq<Row>, b: Batch, maxTrophies: nat)
    requires Packing(batches, rows, maxTrophies) && BatchOk(b, maxTrophies) && b.start == |rows|
    requires 0 < |batches| ==> FullBefore(batches[|batches| - 1], b.rows[0], maxTrophies)
    ensures Packing(batches + [b], rows + b.rows, maxTrophies)
  {
    var all := batches + [b];
    FlattenAppend(batches, b);
    forall i | 0 <= i < |all|
      ensures BatchAt(all, i, maxTrophies)
    {
      if i < |batches| {
        assert BatchAt(batches, i, maxTrophies);
        assert all[..i] == batches[..i];
      } else {
        assert all[..i] == batches;
      }
    }
  }

  lemma {:induction false} TrimRowsAt(rows: seq<Row>, maxTrophies: nat)
    ensures |TrimRows(rows, maxTrophies)| == |rows|
    ensures forall i :: 0 <= i < |rows| ==> TrimRows(rows, maxTrophies)[i] == TrimRow(rows[i], maxTrophies)
  {
    if |rows| > 0 {
      TrimRowsAt(rows[..|rows| - 1], maxTrophies);
    }
  }

  /** Requests closed so far, and the open one, for the rows in `done`. */
  ghost predicate PackingSoFar(batches: seq<Batch>, open: Batch, trophies: int, done: seq<Row>, maxTrophies: nat) {
    && Packing(batches, Flatten(batches), maxTrophies)
    && Flatten(batches) + open.rows == done
    && trophies == Sum(open.rows, Size())
    && (if |open.rows| == 0 then batches == [] && done == []
        else open.start == |Flatten(batches)| && BatchOk(open, maxTrophies))
    && (0 < |batches| ==> FullBefore(batches[|batches| - 1], open.rows[0], maxTrophies))
  }

  lemma RowJoinsOpen(batches: seq<Batch>, open: Batch, trophies: int, done: seq<Row>, row: Row, maxTrophies: nat)
    requires PackingSoFar(batches, open, trophies, done, maxTrophies) && 0 < |open.rows| < UNIT_INGEST_BATCH_SIZE
    requires trophies + |row.trophies| <= maxTrophies
    ensures PackingSoFar(batches, open.(rows := open.rows + [row]), trophies + |row.trophies|, done + [row], maxTrophies)
  {
    SumAppend(open.rows, row, Size());
    assert Flatten(batches) + (open.rows + [row]) == done + [row];
  }

  lemma FirstRow(row: Row, maxTrophies: nat)
    requires |row.trophies| <= maxTrophies
    ensures PackingSoFar([], Batch([row], 0), |row.trophies|, [row], maxTrophies)
  {
    SumAppend([], row, Size());
    assert [] + [row] == [row];
  }

  lemma OpenCloses(batches: seq<Batch>, open: Batch, trophies: int, done: seq<Row>, row: Row, maxTrophies: nat)
    requires PackingSoFar(batches, open, trophies, done, maxTrophies) && 0 < |open.rows|
    requires maxTrophies < trophies + |row.trophies| || UNIT_INGEST_BATCH_SIZE <= |open.rows|
    requires |row.trophies| <= maxTrophies
    ensures PackingSoFar(batches + [open], Batch([row], |done|), |row.trophies|, done + [row], maxTrophies)
  {
    PackingAppend(batches, Flatten(batches), open, maxTrophies);
    FlattenAppend(batches, open);
    SumAppend([], row, Size());
    assert [] + [row] == [row];
  }

  /** The first `index` rows are trimmed to `done`, and `trimmed` counts what they lost. */
  ghost predicate Seen(rows: seq<Row>, index: nat, done: seq<Row>, trimmed: int, maxTrophies: nat) {
    && index <= |rows| && |done| == index
    && done == TrimRows(rows[..index], maxTrophies)
    && trimmed == Sum(rows[..index], Cut(maxTrophies))
  }

  lemma SeenNext(rows: seq<Row>, index: nat, done: seq<Row>, trimmed: int, maxTrophies: nat)
    requires Seen(rows, index, done, trimmed, maxTrophies) && index < |rows|
    ensures var row := TrimRow(rows[index], maxTrophies);
            && |row.trophies| <= maxTrophies
            && Seen(rows, index + 1, done + [row], trimmed + |rows[index].trophies| - |row.trophies|, maxTrophies)
  {
    assert rows[..index + 1][..index] == rows[..index];
    TrimmedFits(rows[index].trophies, maxTrophies);
  }

  /** Kept plus trimmed trophies are the input's. */
  lemma {:induction false} KeptPlusCut(rows: seq<Row>, maxTrophies: nat)
    ensures Sum(rows, Size()) == Sum(TrimRows(rows, maxTrophies), Size()) + Sum(rows, Cut(maxTrophies))
  {
    if |rows| > 0 {
      var front, last := rows[..|rows| - 1], rows[|rows| - 1];
      KeptPlusCut(front, maxTrophies);
      SumAppend(TrimRows(front, maxTrophies), TrimRow(last, maxTrophies), Size());
    }
  }

  /** One row: it closes the open request, joins it, or opens the first. */
  function Placed(batches: seq<Batch>, open: Batch, trophies: int, row: Row, index: nat, maxTrophies: nat): (seq<Batch>, Batch, int) {
    if |open.rows| == 0 then (batches, Batch([row], index), trophies + |row.trophies|)
    else if trophies + |row.trophies| > maxTrophies || |open.rows| >= UNIT_INGEST_BATCH_SIZE then
      (batches + [open], Batch([row], index), |row.trophies|)
    else (batches, Batch(open.rows + [row], open.start), trophies + |row.trophies|)
  }

  lemma RowPlaced(batches: seq<Batch>, open: Batch, trophies: int, done: seq<Row>, row: Row, maxTrophies: nat)
    requires PackingSoFar(batches, open, trophies, done, maxTrophies) && |row.trophies| <= maxTrophies
    ensures var (batches', open', trophies') := Placed(batches, open, trophies, row, |done|, maxTrophies);
            PackingSoFar(batches', open', trophies', done + [row], maxTrophies)
  {
    if |open.rows| == 0 {
      FirstRow(row, maxTrophies);
      assert [] + [row] == [row];
    } else if trophies + |row.trophies| > maxTrophies || |open.rows| >= UNIT_INGEST_BATCH_SIZE {
      OpenCloses(batches, open, trophies, done, row, maxTrophies);
    } else {
      RowJoinsOpen(batches, open, trophies, done, row, maxTrophies);
    }
  }

  lemma LastCloses(batches: seq<Batch>, open: Batch, trophies: int, done: seq<Row>, maxTrophies: nat)
    requires PackingSoFar(batches, open, trophies, done, maxTrophies)
    ensures Packing(if |open.rows| == 0 then batches else batches + [open], done, maxTrophies)
  {
    if |open.rows| > 0 {
      PackingAppend(batches, Flatten(batches), open, maxTrophies);
    }
  }

  /** The end of the loop body: close the open request if the row does not fit, then add the row. */
  method PlaceRow(batches: seq<Batch>, current: seq<Row>, currentStart: nat, currentTrophies: int, row: Row, index: nat, maxTrophies: nat)
    returns (batches': seq<Batch>, current': seq<Row>, currentStart': nat, currentTrophies': int)
    ensures (batches', Batch(current', currentStart'), currentTrophies') ==
            Placed(batches, Batch(current, currentStart), currentTrophies, row, index, maxTrophies)
  {
    batches', current', currentStart', currentTrophies' := batches, current, currentStart, currentTrophies;
    var size := |row.trophies|;
    if |current'| > 0 && (currentTrophies' + size > maxTrophies || |current'| >= UNIT_INGEST_BATCH_SIZE) {
      batches' := batches' + [Batch(current', currentStart')];
      current', currentTrophies' := [], 0;
    }
    if |current'| == 0 {
      currentStart' := index;
    }
    current' := current' + [row];
    assert [] + [row] == [row];
    currentTrophies' := currentTrophies' + size;
  }

  method PackTrophyRows(rows: seq<Row>, maxTrophies: nat) returns (batches: seq<Batch>, trimmed: int)
    ensures Packing(batches, TrimRows(rows, maxTrophies), maxTrophies)
    ensures Sum(rows, Size()) == Sum(TrimRows(rows, maxTrophies), Size()) + trimmed
  {
    batches, trimmed := [], 0;
    var current: seq<Row>, currentStart: nat, currentTrophies := [], 0, 0;
    ghost var done: seq<Row> := [];
    for index := 0 to |rows|
      invariant Seen(rows, index, done, trimmed, maxTrophies)
      invariant PackingSoFar(batches, Batch(current, currentStart), currentTrophies, done, maxTrophies)
    {
      SeenNext(rows, index, done, trimmed, maxTrophies);
      var row := rows[index];
      var keep := TrimTrophies(row.trophies, maxTrophies);
      trimmed := trimmed + |row.trophies| - |keep|;
      row := row.(trophies := keep);
      RowPlaced(batches, Batch(current, currentStart), currentTrophies, done, row, maxTrophies);
      batches, current, currentStart, currentTrophies :=
        PlaceRow(batches, current, currentStart, currentTrophies, row, index, maxTrophies);
      done := done + [row];
    }
    assert rows[..|rows|] == rows;
    KeptPlusCut(rows, maxTrophies);
    LastCloses(batches, Batch(current, currentStart), currentTrophies, done, maxTrophies);
    if |current| > 0 {
      batches := batches + [Batch(current, currentStart)];
    }
  }

  // ------------------------------------------------- what trimming keeps

  lemma {:induction false} KindsAddUp(ts: seq<Trophy>)
    ensures Sum(ts, WinnerCount()) + Sum(ts, OtherCount()) == |ts|
    ensures 0 <= Sum(ts, WinnerCount()) && 0 <= Sum(ts, OtherCount())
  {
    if |ts| > 0 {
      KindsAddUp(ts[..|ts| - 1]);
    }
  }

  /** The last trophy adds one to its own kind and none to the other, and is kept if its kind's quota has room. */
  lemma QuotaStep(ts: seq<Trophy>, winners: int, others: int)
    requires 0 < |ts|
    ensures var rest, last := ts[..|ts| - 1], ts[|ts| - 1];
            var won, other := WinnerCount()(last), OtherCount()(last);
            && 0 <= won <= 1 && other == 1 - won
            && Sum(ts, WinnerCount()) == Sum(rest, WinnerCount()) + won && Sum(ts, OtherCount()) == Sum(rest, OtherCount()) + other
            && Quota(ts, winners, others) ==
               if (if won == 1 then Sum(ts, WinnerCount()) <= winners else Sum(ts, OtherCount()) <= others)
               then Quota(rest, winners, others) + [last] else Quota(rest, winners, others)
  {
    assert Quota(ts[..|ts| - 1], winners, others) + [] == Quota(ts[..|ts| - 1], winners, others);
  }

  lemma {:induction false} QuotaCounts(ts: seq<Trophy>, winners: int, others: int)
    requires 0 <= winners && 0 <= others
    ensures var q := Quota(ts, winners, others);
            && Sum(q, WinnerCount()) == Min(winners, Sum(ts, WinnerCount()))
            && Sum(q, OtherCount()) == Min(others, Sum(ts, OtherCount()))
  {
    if |ts| > 0 {
      var rest, last := ts[..|ts| - 1], ts[|ts| - 1];
      QuotaStep(ts, winners, others);
      QuotaCounts(rest, winners, others);
      KindsAddUp(rest);
      SumAppend(Quota(rest, winners, others), last, WinnerCount());
      SumAppend(Quota(rest, winners, others), last, OtherCount());
    }
  }

  lemma TrimmedFits(ts: seq<Trophy>, maxTrophies: nat)
    ensures |Trimmed(ts, maxTrophies)| <= maxTrophies
  {
    if |ts| > maxTrophies && |Unique(ts)| > maxTrophies {
      TrimmedCounts(ts, maxTrophies);
    }
  }

  /** With more distinct trophies than fit: exactly the limit is kept, winners first. */
  lemma {:induction false} TrimmedCounts(ts: seq<Trophy>, maxTrophies: nat)
    requires maxTrophies < |ts| && maxTrophies < |Unique(ts)|
    ensures var keep, unique := Trimmed(ts, maxTrophies), Unique(ts);
            && |keep| == maxTrophies
            && Sum(keep, WinnerCount()) == Min(maxTrophies, Sum(unique, WinnerCount()))
            && Sum(keep, OtherCount()) == maxTrophies - Min(maxTrophies, Sum(unique, WinnerCount()))
  {
    var unique := Unique(ts);
    var others := Max0(maxTrophies - Sum(unique, WinnerCount()));
    KindsAddUp(unique);
    QuotaCounts(unique, maxTrophies, others);
    KindsAddUp(Trimmed(ts, maxTrophies));
  }

  /** `xs` is `ys` with some elements left out; `at` says where each one came from. */
  ghost predicate SubsequenceAt<T(!new)>(xs: seq<T>, ys: seq<T>, at: seq<int>) {
    && |at| == |xs|
    && (forall i :: 0 <= i < |at| ==> 0 <= at[i] < |ys| && ys[at[i]] == xs[i])
    && (forall i, j :: 0 <= i < j < |at| ==> at[i] < at[j])
  }

  ghost predicate Subsequence<T(!new)>(xs: seq<T>, ys: seq<T>) {
    exists at :: SubsequenceAt(xs, ys, at)
  }

  lemma SubsequenceRefl<T(!new)>(xs: seq<T>)
    ensures Subsequence(xs, xs)
  {
    var at := seq(|xs|, i => i);
    assert SubsequenceAt(xs, xs, at);
  }

  lemma SubsequenceSkip<T(!new)>(xs: seq<T>, ys: seq<T>, y: T)
    requires Subsequence(xs, ys)
    ensures Subsequence(xs, ys + [y])
  {
    var at :| SubsequenceAt(xs, ys, at);
    assert SubsequenceAt(xs, ys + [y], at);
  }

  lemma SubsequenceTake<T(!new)>(xs: seq<T>, ys: seq<T>, y: T)
    requires Subsequence(xs, ys)
    ensures Subsequence(xs + [y], ys + [y])
  {
    var at :| SubsequenceAt(xs, ys, at);
    assert SubsequenceAt(xs + [y], ys + [y], at + [|ys|]);
  }

  lemma SubsequenceTrans<T(!new)>(xs: seq<T>, ys: seq<T>, zs: seq<T>)
    requires Subsequence(xs, ys) && Subsequence(ys, zs)
    ensures Subsequence(xs, zs)
  {
    var p :| SubsequenceAt(xs, ys, p);
    var q :| SubsequenceAt(ys, zs, q);
    var r := seq(|p|, i requires 0 <= i < |p| => q[p[i]]);
    assert SubsequenceAt(xs, zs, r);
  }

  lemma {:induction false} UniqueSubsequence(ts: seq<Trophy>)
    ensures Subsequence(Unique(ts), ts)
  {
    if |ts| == 0 {
      SubsequenceRefl(ts);
    } else {
      var rest, last := ts[..|ts| - 1], ts[|ts| - 1];
      UniqueSubsequence(rest);
      assert ts == rest + [last];
      if TrophyIdentity(last) in Identities(rest) {
        SubsequenceSkip(Unique(rest), rest, last);
      } else {
        SubsequenceTake(Unique(rest), rest, last);
      }
    }
  }

  lemma {:induction false} UniqueKeepsIdentities(ts: seq<Trophy>)
    ensures Identities(Unique(ts)) == Identities(ts)
  {
    if |ts| > 0 {
      var rest, last := ts[..|ts| - 1], ts[|ts| - 1];
      UniqueKeepsIdentities(rest);
      assert ts == rest + [last];
      IdentitiesAppend(rest, last);
      IdentitiesAppend(Unique(rest), last);
    }
  }

  lemma {:induction false} IdentitiesDiffer(ts: seq<Trophy>)
    ensures forall i, j :: 0 <= i < j < |Unique(ts)| ==> TrophyIdentity(Unique(ts)[i]) != TrophyIdentity(Unique(ts)[j])
  {
    if |ts| > 0 {
      var rest, last := ts[..|ts| - 1], ts[|ts| - 1];
      IdentitiesDiffer(rest);
      UniqueKeepsIdentities(rest);
      forall i | 0 <= i < |Unique(rest)| && TrophyIdentity(last) !in Identities(rest)
        ensures TrophyIdentity(Unique(rest)[i]) != TrophyIdentity(last)
      {
        assert TrophyIdentity(Unique(rest)[i]) in Identities(Unique(rest));
      }
    }
  }

  ghost predicate AllPlain(ts: seq<Trophy>) { forall t :: t in ts ==> Plain(t) }

  /**
    Of trophies with the same four fields, white space around them aside, one is kept and no more;
    and where no field holds the separator, every trophy has one with its own fields among the kept.
  */
  lemma {:induction false} UniqueIsDistinct(ts: seq<Trophy>)
    ensures forall i, j :: 0 <= i < j < |Unique(ts)| ==> !SameFields(Unique(ts)[i], Unique(ts)[j])
    ensures AllPlain(ts) ==> forall t :: t in ts ==> exists u :: u in Unique(ts) && SameFields(t, u)
  {
    IdentitiesDiffer(ts);
    forall i, j | 0 <= i < j < |Unique(ts)|
      ensures !SameFields(Unique(ts)[i], Unique(ts)[j])
    {
      IdentityIs(Unique(ts)[i], Unique(ts)[j]);
    }
    if AllPlain(ts) {
      UniqueKeepsIdentities(ts);
      AmongAll(ts);
      forall t | t in ts
        ensures exists u :: u in Unique(ts) && SameFields(t, u)
      {
        assert TrophyIdentity(t) in Identities(Unique(ts));
        var u :| u in Unique(ts) && TrophyIdentity(u) == TrophyIdentity(t);
        IdentityIs(t, u);
      }
    }
  }

  lemma {:induction false} AmongAll(ts: seq<Trophy>)
    ensures forall t :: t in Unique(ts) ==> t in ts
  {
    if |ts| > 0 {
      AmongAll(ts[..|ts| - 1]);
      assert ts == ts[..|ts| - 1] + [ts[|ts| - 1]];
    }
  }

  lemma {:induction false} QuotaSubsequence(ts: seq<Trophy>, winners: int, others: int)
    ensures Subsequence(Quota(ts, winners, others), ts)
  {
    if |ts| == 0 {
      SubsequenceRefl(ts);
    } else {
      var rest, last := ts[..|ts| - 1], ts[|ts| - 1];
      QuotaSubsequence(rest, winners, others);
      assert ts == rest + [last];
      if Quota(ts, winners, others) == Quota(rest, winners, others) + [last] {
        SubsequenceTake(Quota(rest, winners, others), rest, last);
      } else {
        assert Quota(ts, winners, others) == Quota(rest, winners, others);
        SubsequenceSkip(Quota(rest, winners, others), rest, last);
      }
    }
  }

  /** A quota at least as large as the supply keeps every winner. */
  lemma {:induction false} QuotaKeepsAllWinners(ts: seq<Trophy>, winners: int, others: int, t: Trophy)
    requires Sum(ts, WinnerCount()) <= winners && t in ts && IsWinner(t)
    ensures t in Quota(ts, winners, others)
    decreases |ts|
  {
    var rest, last := ts[..|ts| - 1], ts[|ts| - 1];
    assert ts == rest + [last];
    if t in rest {
      QuotaKeepsAllWinners(rest, winners, others, t);
    }
  }

  /** When too many distinct trophies compete, a place other than winner survives only beside every winner. */
  lemma {:induction false} WinnersComeFirst(ts: seq<Trophy>, maxTrophies: nat, t: Trophy, w: Trophy)
    requires maxTrophies < |ts| && maxTrophies < |Unique(ts)|
    requires t in Trimmed(ts, maxTrophies) && !IsWinner(t) && w in Unique(ts) && IsWinner(w)
    ensures w in Trimmed(ts, maxTrophies)
  {
    var unique := Unique(ts);
    TrimmedCounts(ts, maxTrophies);
    OtherCounted(Trimmed(ts, maxTrophies), t);
    QuotaKeepsAllWinners(unique, maxTrophies, Max0(maxTrophies - Sum(unique, WinnerCount())), w);
  }

  /** What is left of the distinct trophies is in order among all of them. */
  lemma {:induction false} AmongUnique(kept: seq<Trophy>, ts: seq<Trophy>)
    requires Subsequence(kept, Unique(ts))
    ensures Subsequence(kept, ts)
  {
    var unique := Unique(ts);
    UniqueSubsequence(ts);
    SubsequenceTrans(kept, unique, ts);
  }

  lemma BestIsSubsequence(unique: seq<Trophy>, maxTrophies: nat)
    ensures Subsequence(BestOf(unique, maxTrophies), unique)
  {
    if |unique| <= maxTrophies {
      SubsequenceRefl(unique);
    } else {
      QuotaSubsequence(unique, maxTrophies, Max0(maxTrophies - Sum(unique, WinnerCount())));
    }
  }

  lemma {:induction false} TrimIsSubsequence(ts: seq<Trophy>, maxTrophies: nat)
    ensures Subsequence(Trimmed(ts, maxTrophies), ts)
    ensures maxTrophies < |ts| ==> Subsequence(Trimmed(ts, maxTrophies), Unique(ts))
  {
    if |ts| <= maxTrophies {
      SubsequenceRefl(ts);
    } else {
      BestIsSubsequence(Unique(ts), maxTrophies);
      AmongUnique(Trimmed(ts, maxTrophies), ts);
    }
  }

  /**
    Trimming one subject. Nothing happens to a subject that fits. Otherwise what is kept is an
    in-order subsequence of its distinct trophies, no identity twice: all of them if they fit,
    else exactly the limit, and then a place other than winner is kept only if every distinct
    winner is.
  */
  lemma {:induction false} TrimKeepsTheBest(ts: seq<Trophy>, maxTrophies: nat)
    ensures var keep, unique := Trimmed(ts, maxTrophies), Unique(ts);
            && Subsequence(keep, ts)
            && (|ts| <= maxTrophies ==> keep == ts)
            && (maxTrophies < |ts| ==>
                  && Subsequence(keep, unique)
                  && |keep| == Min(maxTrophies, |unique|)
                  && (forall t, w :: t in keep && !Won(t) && w in unique && Won(w) ==> w in keep))
  {
    TrimIsSubsequence(ts, maxTrophies);
    forall t
      ensures IsWinner(t) <==> Won(t)
    {
      WinnerIs(t);
    }
    if maxTrophies < |ts| && maxTrophies < |Unique(ts)| {
      TrimmedCounts(ts, maxTrophies);
      forall t, w | t in Trimmed(ts, maxTrophies) && !IsWinner(t) && w in Unique(ts) && IsWinner(w)
        ensures w in Trimmed(ts, maxTrophies)
      {
        WinnersComeFirst(ts, maxTrophies, t, w);
      }
    }
  }

  lemma {:induction false} OtherCounted(ts: seq<Trophy>, t: Trophy)
    requires t in ts && !IsWinner(t)
    ensures 1 <= Sum(ts, OtherCount())
  {
    var i :| 0 <= i < |ts| && ts[i] == t;
    SumAtLeastMember(ts, i, OtherCount());
  }

  /** No two neighbouring requests of a packing could have been one. */
  lemma NeighboursCannotMerge(batches: seq<Batch>, rows: seq<Row>, maxTrophies: nat, i: nat)
    requires Packing(batches, rows, maxTrophies) && i + 1 < |batches|
    ensures !BatchOk(Batch(batches[i].rows + batches[i + 1].rows, batches[i].start), maxTrophies)
  {
    var a, b := batches[i].rows, batches[i + 1].rows;
    assert BatchAt(batches, i + 1, maxTrophies);
    SumConcat(a, b, Size());
    SumAtLeastMember(b, 0, Size());
  }

  /** Each subject's row is in one batch, whole, at the place its start index promises. */
  lemma RowAtItsPlace(batches: seq<Batch>, rows: seq<Row>, maxTrophies: nat, i: nat, k: nat)
    requires Packing(batches, rows, maxTrophies) && i < |batches| && k < |batches[i].rows|
    ensures batches[i].start + k < |rows| && rows[batches[i].start + k] == batches[i].rows[k]
  {
    assert BatchAt(batches, i, maxTrophies);
    FlattenPlace(batches, i, k);
  }

  lemma {:induction false} FlattenPlace(batches: seq<Batch>, i: nat, k: nat)
    requires i < |batches| && k < |batches[i].rows|
    ensures |Flatten(batches[..i])| + k < |Flatten(batches)|
    ensures Flatten(batches)[|Flatten(batches[..i])| + k] == batches[i].rows[k]
  {
    var front := batches[..|batches| - 1];
    if i < |front| {
      FlattenPlace(front, i, k);
      assert front[..i] == batches[..i];
    } else {
      assert batches[..i] == front;
    }
  }
}
