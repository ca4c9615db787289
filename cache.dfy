// The engine's in-memory TTL cache (engine/cache.py) and the resolver's
// read-through helper `get_or_fetch` (engine/resolver.py). The clock is a
// parameter; the lock only serialises access and is not modelled.
module Cache {
  import opened Wrappers

  /** Default time-to-live of `get_cached`, in seconds. */
  const DefaultTtl: real := 60.0

  datatype Entry<T> = Entry(data: T, ts: real)

  /** A stored entry is served while its age is below the time-to-live. */
  predicate IsFresh<T>(e: Entry<T>, ttl: real, now: real)
  {
    now - e.ts < ttl
  }

  /** What `get_cached(key, ttl)` returns from a store at time `now`. */
  function Lookup<T>(store: map<string, Entry<T>>, key: string, ttl: real, now: real): (r: Option<T>)
    ensures r.Some? <==> key in store && IsFresh(store[key], ttl, now)
    ensures r.Some? ==> r.value == store[key].data
  {
    if key in store && IsFresh(store[key], ttl, now) then Some(store[key].data) else None
  }

  class TtlCache<T> {
    var store: map<string, Entry<T>>

    constructor ()
      ensures store == map[]
    {
      store := map[];
    }

    /** get_cached: reads only. */
    method Get(key: string, ttl: real, now: real) returns (r: Option<T>)
      ensures r == Lookup(store, key, ttl, now)
    {
      if key in store && now - store[key].ts < ttl {
        r := Some(store[key].data);
      } else {
        r := None;
      }
    }

    /** set_cached: overwrites the one key with a fresh timestamp. */
    method Set(key: string, data: T, now: real)
      modifies this
      ensures store == old(store)[key := Entry(data, now)]
    {
      store := store[key := Entry(data, now)];
    }

    /**
     * get_or_fetch: the cached value under the default time-to-live, or else
     * the fetcher's result, or None when the fetcher raised. `fetched` tells
     * whether the fetcher was invoked; the result is not written back.
     */
    method GetOrFetch(key: string, now: real, fetch: Outcome<Option<T>>) returns (r: Option<T>, fetched: bool)
      ensures fetched <==> Lookup(store, key, DefaultTtl, now).None?
      ensures r == ReadThrough(Lookup(store, key, DefaultTtl, now), fetch)
    {
      var cached := Get(key, DefaultTtl, now);
      if cached.Some? {
        return cached, false;
      }
      fetched := true;
      match fetch
      case Ok(v) => r := v;
      case Raised => r := None;
    }
  }

  /** The read-through rule: a hit wins, else the fetch result, else nothing. */
  function ReadThrough<T>(cached: Option<T>, fetch: Outcome<Option<T>>): (r: Option<T>)
    ensures cached.Some? ==> r == cached
    ensures cached.None? && fetch.Raised? ==> r.None?
    ensures cached.None? && fetch.Ok? ==> r == fetch.value
  {
    if cached.Some? then cached
    else match fetch
      case Ok(v) => v
      case Raised => None
  }

  /** A value just stored is served back under any positive time-to-live. */
  lemma SetThenGet<T>(store: map<string, Entry<T>>, key: string, data: T, ttl: real, now: real)
    requires ttl > 0.0
    ensures Lookup(store[key := Entry(data, now)], key, ttl, now) == Some(data)
  {
  }

  /** Storing under one key leaves every other key's lookup unchanged. */
  lemma SetOtherKey<T>(store: map<string, Entry<T>>, key: string, other: string, data: T, ttl: real, now: real, t: real)
    requires other != key
    ensures Lookup(store[key := Entry(data, now)], other, ttl, t) == Lookup(store, other, ttl, t)
  {
  }

  /** Once an entry has expired it stays expired as time goes on. */
  lemma ExpiryIsPermanent<T>(store: map<string, Entry<T>>, key: string, ttl: real, t1: real, t2: real)
    requires t1 <= t2
    requires Lookup(store, key, ttl, t1).None?
    ensures Lookup(store, key, ttl, t2).None?
  {
  }

  /** An entry stored at `ts` is served exactly until `ts + ttl`. */
  lemma FreshWindow<T>(data: T, ts: real, ttl: real, now: real)
    ensures IsFresh(Entry(data, ts), ttl, now) <==> now < ts + ttl
  {
  }
}
