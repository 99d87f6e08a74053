/**
 * The in-memory cache of src/cache/in-memory-cache.ts. A `setTimeout` eviction
 * is a `Timer` token: scheduling adds it to `pending`, `clearTimeout` removes it,
 * and the timer firing is the `Expire` event. No clock is modelled.
 */
module Caching {
  import opened Types

  /** A scheduled eviction: the id `setTimeout` returned, the key it deletes, the ttl in seconds (a JavaScript number). */
  datatype Timer = Timer(id: nat, key: string, ttl: real)

  /** A stored entry (the `Cached` class): the data and the timer that will evict it. */
  datatype Cached<T> = Cached(data: T, timeoutId: Timer)

  class InMemoryCache<T> {
    var storage: map<string, Cached<T>>
    /** The timers scheduled and neither cancelled nor fired. */
    var pending: set<Timer>
    /** The id the next `setTimeout` returns. */
    var nextTimerId: nat

    /**
     * Every entry's timer is pending and evicts that entry's key, and every
     * pending timer is the one recorded in the current entry for its key.
     */
    ghost predicate Valid()
      reads this
    {
      && (forall k :: k in storage ==> storage[k].timeoutId in pending && storage[k].timeoutId.key == k)
      && (forall t :: t in pending ==> t.key in storage && storage[t.key].timeoutId == t)
      && (forall t :: t in pending ==> t.id < nextTimerId)
    }

    /** The data the cache holds, by key. */
    ghost function Contents(): map<string, T>
      reads this
    {
      map k | k in storage :: storage[k].data
    }

    /** The pending timers that would evict `key`. */
    ghost function PendingFor(key: string): set<Timer>
      reads this
    {
      set t | t in pending && t.key == key
    }

    constructor()
      ensures Valid()
      ensures Contents() == map[] && pending == {}
    {
      storage := map[];
      pending := {};
      nextTimerId := 0;
    }

    /** `get(key)`: the stored data, or `undefined` when the key is absent. */
    method Get(key: string) returns (r: Option<T>)
      ensures r.Some? <==> key in Contents()
      ensures r.Some? ==> r.value == Contents()[key]
    {
      r := if key in storage then Some(storage[key].data) else None;
    }

    /** `has(key)`: whether the key is stored. */
    method Has(key: string) returns (b: bool)
      ensures b <==> key in Contents()
    {
      b := key in storage;
    }

    /**
     * `set(key, data, ttl)`: removes any entry for `key` and cancels its timer,
     * schedules a new eviction of `key` and stores `data` under it; no other key
     * and no other timer changes.
     */
    method Set(key: string, data: T, ttl: real)
      requires Valid()
      modifies this
      ensures Valid()
      ensures Contents() == old(Contents())[key := data]
      ensures storage == old(storage)[key := Cached(data, Timer(old(nextTimerId), key, ttl))]
      ensures nextTimerId == old(nextTimerId) + 1
      ensures pending == old(pending - PendingFor(key)) + {Timer(old(nextTimerId), key, ttl)}
      ensures PendingFor(key) == {storage[key].timeoutId}
    {
      Del(key);
      ghost var before := Contents();
      var timeoutId := Timer(nextTimerId, key, ttl);
      ghost var kept := storage;
      Schedule(timeoutId, data);
      assert storage == kept[key := Cached(data, timeoutId)];
      assert Contents() == before[key := data];
    }

    /** `setTimeout` installs `t` and a new entry for its key is stored with it. */
    method Schedule(t: Timer, data: T)
      requires Valid() && t.key !in storage && t.id == nextTimerId
      modifies this
      ensures Valid()
      ensures storage == old(storage)[t.key := Cached(data, t)]
      ensures pending == old(pending) + {t}
      ensures nextTimerId == old(nextTimerId) + 1
      ensures PendingFor(t.key) == {t}
    {
      nextTimerId := nextTimerId + 1;
      pending := pending + {t};
      storage := storage[t.key := Cached(data, t)];
    }

    /**
     * `del(key)`: removes the entry for `key` and cancels its timer; a no-op when
     * the key is absent; no other key and no other timer changes.
     */
    method Del(key: string)
      requires Valid()
      modifies this
      ensures Valid()
      ensures Contents() == old(Contents()) - {key}
      ensures storage == old(storage) - {key}
      ensures pending == old(pending - PendingFor(key))
      ensures nextTimerId == old(nextTimerId)
      ensures key !in old(storage) ==> storage == old(storage) && pending == old(pending)
    {
      var present := Has(key);
      if present {
        var cancelled := storage[key].timeoutId;
        assert PendingFor(key) == {cancelled};
        pending := pending - {cancelled};
        storage := storage - {key};
      } else {
        assert PendingFor(key) == {};
      }
    }

    /** A pending timer fires and runs its callback `this.del(key)`: only its own key goes away. */
    method Expire(t: Timer)
      requires Valid() && t in pending
      modifies this
      ensures Valid()
      ensures Contents() == old(Contents()) - {t.key}
      ensures pending == old(pending) - {t}
    {
      assert PendingFor(t.key) == {t};
      Del(t.key);
    }
  }

  /** The invariant leaves at most one pending timer per key: the one of the key's current entry. */
  lemma OnePendingTimerPerKey<T>(c: InMemoryCache<T>, key: string)
    requires c.Valid()
    ensures key in c.storage ==> c.PendingFor(key) == {c.storage[key].timeoutId}
    ensures key !in c.storage ==> c.PendingFor(key) == {}
  {
  }
}
