/**
  The emit-once marker stores (src/worker/match-concluded-publisher.ts and
  src/worker/redis-emitted-fixture-store.ts): an atomic set-if-absent per fixture key, bounded
  in memory by dropping the oldest key.
*/
module EmittedStore {
  import opened Common

  function Key(providerId: string, providerFixtureId: string): string { providerId + ":" + providerFixtureId }

  /** Insertion order, oldest first. */
  type Keys = seq<string>

  function Without(seen: Keys, key: string): Keys {
    if |seen| == 0 then [] else (if seen[0] == key then [] else [seen[0]]) + Without(seen[1..], key)
  }

  function Marked(seen: Keys, key: string, max: nat): Keys {
    if key in seen then seen
    else
      var added := seen + [key];
      if |added| > max then added[1..] else added
  }

  ghost predicate NoDup(seen: Keys) {
    forall i, j :: 0 <= i < j < |seen| ==> seen[i] != seen[j]
  }

  class InMemoryEmittedFixtureStore {
    const max: nat
    var seen: Keys

    ghost predicate Valid()
      reads this
    {
      0 < max && NoDup(seen) && |seen| <= max
    }

    constructor (max: int)
      ensures Valid() && seen == [] && this.max == Max(1, max)
    {
      this.max := Max(1, max);
      seen := [];
    }

    method HasEmitted(providerId: string, providerFixtureId: string) returns (r: bool)
      ensures r == (Key(providerId, providerFixtureId) in seen)
    {
      r := Key(providerId, providerFixtureId) in seen;
    }

    /** True for exactly the caller that puts the marker there; the marker then is there. */
    method MarkEmitted(providerId: string, providerFixtureId: string) returns (reserved: bool)
      requires Valid()
      modifies this
      ensures var key := Key(providerId, providerFixtureId);
              && Valid() && seen == Marked(old(seen), key, max)
              && reserved == (key !in old(seen)) && key in seen
              && (forall k :: k in seen ==> k == key || k in old(seen))
              && (|old(seen)| < max ==> forall k :: k in old(seen) ==> k in seen)
    {
      var key := Key(providerId, providerFixtureId);
      if key in seen {
        return false;
      }
      MarkedIs(seen, key, max);
      seen := seen + [key];
      if |seen| > max {
        seen := seen[1..];
      }
      return true;
    }

    method ClearEmitted(providerId: string, providerFixtureId: string)
      requires Valid()
      modifies this
      ensures Valid() && seen == Without(old(seen), Key(providerId, providerFixtureId))
      ensures forall k :: k in seen <==> k in old(seen) && k != Key(providerId, providerFixtureId)
    {
      WithoutIs(seen, Key(providerId, providerFixtureId));
      seen := Without(seen, Key(providerId, providerFixtureId));
    }

    method Reset()
      modifies this
      ensures seen == []
    {
      seen := [];
    }
  }

  // ------------------------------------------------------------------ lemmas

  lemma {:induction false} WithoutIs(seen: Keys, key: string)
    requires NoDup(seen)
    ensures NoDup(Without(seen, key)) && |Without(seen, key)| <= |seen|
    ensures forall k :: k in Without(seen, key) <==> k in seen && k != key
  {
    if |seen| > 0 {
      WithoutIs(seen[1..], key);
      var rest := Without(seen[1..], key);
      assert forall k :: k in seen <==> k == seen[0] || k in seen[1..];
      forall j | 0 <= j < |rest|
        ensures rest[j] != seen[0]
      {
        assert rest[j] in seen[1..];
      }
    }
  }

  lemma MarkedIs(seen: Keys, key: string, max: nat)
    requires NoDup(seen) && |seen| <= max && 0 < max
    ensures NoDup(Marked(seen, key, max)) && |Marked(seen, key, max)| <= max && key in Marked(seen, key, max)
    ensures forall k :: k in Marked(seen, key, max) ==> k == key || k in seen
    ensures |seen| < max ==> forall k :: k in Marked(seen, key, max) <==> k == key || k in seen
  {
    if key !in seen {
      var added := seen + [key];
      assert added[|added| - 1] == key;
      if |added| > max {
        assert added[1..][|added| - 2] == key;
      }
    }
  }

  /** A full store forgets its oldest fixture, which can then be reserved a second time. */
  lemma EvictionReopens(seen: Keys, key: string, max: nat)
    requires NoDup(seen) && 0 < |seen| == max && key !in seen
    ensures seen[0] !in Marked(seen, key, max)
  {
    var after := (seen + [key])[1..];
    forall j | 0 <= j < |after|
      ensures after[j] != seen[0]
    {
      assert after[j] == (seen + [key])[j + 1];
    }
  }

  /** `q` goes on past `p` and a colon, and `f` is the rest of it before `g`. */
  predicate ColonMoved(p: string, f: string, q: string, g: string) {
    |p| < |q| && q[..|p|] == p && q[|p|] == ':' && f == q[|p| + 1..] + ":" + g
  }

  lemma ColonMovedCollides(p: string, f: string, q: string, g: string)
    requires ColonMoved(p, f, q, g)
    ensures Key(p, f) == Key(q, g)
  {
    assert q == p + ":" + q[|p| + 1..];
  }

  lemma LongerNameHoldsColon(p: string, f: string, q: string, g: string)
    requires Key(p, f) == Key(q, g) && |p| < |q|
    ensures ColonMoved(p, f, q, g)
  {
    var k := Key(p, f);
    assert k[..|p|] == p && k[..|q|] == q && k[|p|] == ':';
    assert f == k[|p| + 1..] && g == k[|q| + 1..];
    assert f == k[|p| + 1..|q|] + ":" + k[|q| + 1..];
  }

  lemma SameNameSameFixture(p: string, f: string, q: string, g: string)
    requires Key(p, f) == Key(q, g) && |p| == |q|
    ensures p == q && f == g
  {
    var k := Key(p, f);
    assert k[..|p|] == p && k[..|q|] == q;
    assert k[|p| + 1..] == f && k[|q| + 1..] == g;
  }

  /** Two fixtures share a key exactly when they are one, or a colon moved from one name to the other. */
  lemma KeysCollideOnlyAcrossColons(p: string, f: string, q: string, g: string)
    ensures Key(p, f) == Key(q, g) <==> (p == q && f == g) || ColonMoved(p, f, q, g) || ColonMoved(q, g, p, f)
    ensures ':' !in p && ':' !in q && Key(p, f) == Key(q, g) ==> p == q && f == g
  {
    if Key(p, f) == Key(q, g) {
      if |p| < |q| {
        LongerNameHoldsColon(p, f, q, g);
      } else if |q| < |p| {
        LongerNameHoldsColon(q, g, p, f);
      } else {
        SameNameSameFixture(p, f, q, g);
      }
    }
    if ColonMoved(p, f, q, g) {
      ColonMovedCollides(p, f, q, g);
    }
    if ColonMoved(q, g, p, f) {
      ColonMovedCollides(q, g, p, f);
    }
  }
}
