/**
  `InMemoryAttemptCounter` (src/worker/redis-stream-consumer.ts): failures in a row per event id,
  in an insertion-ordered map that drops its oldest key when it grows past its bound.
*/
module AttemptCounter {
  import opened Common

  datatype Count = Count(key: string, value: nat)

  /** An insertion-ordered map: oldest first, no key twice. */
  type Counts = seq<Count>

  ghost predicate NoDup(counts: Counts) {
    forall i, j :: 0 <= i < j < |counts| ==> counts[i].key != counts[j].key
  }

  function Get(counts: Counts, key: string): nat {
    if |counts| == 0 then 0 else if counts[0].key == key then counts[0].value else Get(counts[1..], key)
  }

  function Without(counts: Counts, key: string): Counts {
    if |counts| == 0 then [] else (if counts[0].key == key then [] else [counts[0]]) + Without(counts[1..], key)
  }

  /** `key` counted once more and moved to the young end, before the bound is applied. */
  function Moved(counts: Counts, key: string): Counts {
    Without(counts, key) + [Count(key, Get(counts, key) + 1)]
  }

  function Incremented(counts: Counts, key: string, max: nat): Counts {
    var moved := Moved(counts, key);
    if |moved| > max then moved[1..] else moved
  }

  predicate Evicts(counts: Counts, key: string, max: nat) { |Moved(counts, key)| > max }

  class InMemoryAttemptCounter {
    const max: nat
    var counts: Counts

    ghost predicate Valid()
      reads this
    {
      0 < max && NoDup(counts) && |counts| <= max
    }

    constructor (max: int)
      ensures Valid() && counts == [] && this.max == Max(1, max)
    {
      this.max := Max(1, max);
      counts := [];
    }

    /** One more attempt for `key`: it is never the key dropped, and no other count grows. */
    method Increment(key: string) returns (next: nat)
      requires Valid()
      modifies this
      ensures Valid() && counts == Incremented(old(counts), key, max)
      ensures next == Get(old(counts), key) + 1 == Get(counts, key)
      ensures forall k :: k != key ==> Get(counts, k) <= Get(old(counts), k)
      ensures !Evicts(old(counts), key, max) ==> forall k :: k != key ==> Get(counts, k) == Get(old(counts), k)
    {
      IncrementedIs(counts, key, max);
      next := Get(counts, key) + 1;
      counts := Without(counts, key);
      counts := counts + [Count(key, next)];
      if |counts| > max {
        counts := counts[1..];
      }
    }

    method Reset(key: string)
      requires Valid()
      modifies this
      ensures Valid() && counts == Without(old(counts), key)
      ensures forall k :: Get(counts, k) == if k == key then 0 else Get(old(counts), k)
    {
      WithoutIs(counts, key);
      counts := Without(counts, key);
    }

    method Size() returns (n: nat)
      requires Valid()
      ensures n == |counts| && n <= max
    {
      n := |counts|;
    }
  }

  // ------------------------------------------------------------------ lemmas

  lemma {:induction false} WithoutGets(counts: Counts, key: string, k: string)
    ensures Get(Without(counts, key), k) == if k == key then 0 else Get(counts, k)
  {
    if |counts| > 0 {
      WithoutGets(counts[1..], key, k);
      var rest := Without(counts[1..], key);
      if counts[0].key != key {
        assert ([counts[0]] + rest)[1..] == rest;
      } else {
        assert [] + rest == rest;
      }
    }
  }

  lemma {:induction false} WithoutKeys(counts: Counts, key: string)
    ensures forall c :: c in Without(counts, key) <==> c in counts && c.key != key
    ensures |Without(counts, key)| <= |counts|
  {
    if |counts| > 0 {
      WithoutKeys(counts[1..], key);
      assert forall c :: c in counts <==> c == counts[0] || c in counts[1..];
    }
  }

  lemma {:induction false} WithoutNoDup(counts: Counts, key: string)
    requires NoDup(counts)
    ensures NoDup(Without(counts, key))
  {
    if |counts| > 0 {
      var rest := Without(counts[1..], key);
      WithoutNoDup(counts[1..], key);
      WithoutKeys(counts[1..], key);
      forall j | 0 <= j < |rest|
        ensures rest[j].key != counts[0].key
      {
        assert rest[j] in counts[1..];
      }
    }
  }

  lemma {:induction false} AppendGets(counts: Counts, c: Count, k: string)
    ensures Get(counts + [c], k) == if exists d :: d in counts && d.key == k then Get(counts, k) else if c.key == k then c.value else 0
  {
    if |counts| > 0 {
      AppendGets(counts[1..], c, k);
      assert (counts + [c])[1..] == counts[1..] + [c];
      assert forall d :: d in counts <==> d == counts[0] || d in counts[1..];
    }
  }

  lemma {:induction false} AbsentIsZero(counts: Counts, k: string)
    requires forall c :: c in counts ==> c.key != k
    ensures Get(counts, k) == 0
  {
    if |counts| > 0 {
      AbsentIsZero(counts[1..], k);
    }
  }

  lemma {:induction false} WithoutIs(counts: Counts, key: string)
    requires NoDup(counts)
    ensures NoDup(Without(counts, key)) && |Without(counts, key)| <= |counts|
    ensures forall k :: Get(Without(counts, key), k) == if k == key then 0 else Get(counts, k)
  {
    WithoutNoDup(counts, key);
    WithoutKeys(counts, key);
    forall k
      ensures Get(Without(counts, key), k) == if k == key then 0 else Get(counts, k)
    {
      WithoutGets(counts, key, k);
    }
  }

  lemma {:induction false} MovedIs(counts: Counts, key: string)
    requires NoDup(counts)
    ensures var moved := Moved(counts, key);
            && NoDup(moved) && 0 < |moved| <= |counts| + 1
            && moved[|moved| - 1].key == key
            && forall k :: Get(moved, k) == if k == key then Get(counts, key) + 1 else Get(counts, k)
  {
    var rest, c := Without(counts, key), Count(key, Get(counts, key) + 1);
    WithoutIs(counts, key);
    WithoutKeys(counts, key);
    forall j | 0 <= j < |rest|
      ensures rest[j].key != key
    {
      assert rest[j] in rest;
    }
    forall k
      ensures Get(rest + [c], k) == if k == key then c.value else Get(counts, k)
    {
      AppendGets(rest, c, k);
      if forall d :: d in rest ==> d.key != k {
        AbsentIsZero(rest, k);
      }
    }
  }

  lemma {:induction false} OldestDropped(counts: Counts, k: string)
    requires NoDup(counts) && 0 < |counts|
    ensures NoDup(counts[1..])
    ensures Get(counts[1..], k) == if k == counts[0].key then 0 else Get(counts, k)
  {
    if k == counts[0].key {
      forall c | c in counts[1..]
        ensures c.key != k
      {
        var j :| 0 <= j < |counts[1..]| && counts[1..][j] == c;
        assert counts[1..][j] == counts[j + 1];
      }
      AbsentIsZero(counts[1..], k);
    }
  }

  /** What an increment does to every count. */
  lemma {:induction false} IncrementedIs(counts: Counts, key: string, max: nat)
    requires NoDup(counts) && |counts| <= max && 0 < max
    ensures var after := Incremented(counts, key, max);
            && NoDup(after) && |after| <= max
            && Get(after, key) == Get(counts, key) + 1
            && (forall k :: k != key ==> Get(after, k) <= Get(counts, k))
            && (!Evicts(counts, key, max) ==> forall k :: k != key ==> Get(after, k) == Get(counts, k))
  {
    MovedIs(counts, key);
    var moved := Moved(counts, key);
    if |moved| > max {
      assert moved[0].key != moved[|moved| - 1].key;
      forall k
        ensures NoDup(moved[1..])
        ensures Get(moved[1..], k) == if k == moved[0].key then 0 else Get(moved, k)
      {
        OldestDropped(moved, k);
      }
    }
  }
}
