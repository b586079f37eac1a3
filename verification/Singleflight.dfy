/**
  Coalescing of concurrent calls (src/worker/singleflight.ts). A promise is named by a
  number; whoever finds none in flight for its key starts one.
*/
module SingleflightMap {

  type InFlight<K> = map<K, nat>

  /** The promise a caller of `key` awaits, given the number a new one would get. */
  function Joined<K>(inflight: InFlight<K>, key: K, candidate: nat): nat {
    if key in inflight then inflight[key] else candidate
  }

  function Started<K>(inflight: InFlight<K>, key: K, candidate: nat): InFlight<K> {
    inflight[key := Joined(inflight, key, candidate)]
  }

  /** A settling promise clears its own claim and no newer one. */
  function Cleared<K>(inflight: InFlight<K>, key: K, pending: nat): InFlight<K> {
    if key in inflight && inflight[key] == pending then inflight - {key} else inflight
  }

  class Singleflight<K(==)> {
    var inflight: InFlight<K>

    constructor ()
      ensures inflight == map[]
    {
      inflight := map[];
    }

    method Do(key: K, candidate: nat) returns (pending: nat, started: bool)
      modifies this
      ensures pending == Joined(old(inflight), key, candidate)
      ensures started <==> key !in old(inflight)
      ensures inflight == Started(old(inflight), key, candidate)
      ensures key in inflight && inflight[key] == pending == if key in old(inflight) then old(inflight)[key] else candidate
      ensures forall k :: k != key ==> (k in inflight <==> k in old(inflight)) && (k in inflight ==> inflight[k] == old(inflight)[k])
    {
      if key in inflight {
        pending, started := inflight[key], false;
        assert inflight == inflight[key := inflight[key]];
      } else {
        pending, started := candidate, true;
        inflight := inflight[key := candidate];
      }
    }

    method Settle(key: K, pending: nat)
      modifies this
      ensures inflight == Cleared(old(inflight), key, pending)
      ensures forall k :: k in inflight <==> k in old(inflight) && !(k == key && old(inflight)[k] == pending)
      ensures forall k :: k in inflight ==> inflight[k] == old(inflight)[k]
    {
      if key in inflight && inflight[key] == pending {
        inflight := inflight - {key};
      }
    }
  }
}
