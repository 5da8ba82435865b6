/**
  The dashboard's time-bounded cache (`createCache`). Entries live in the
  browser's `localStorage`, modelled here as the `Storage` object; the cache
  wrapper holds no state of its own, so a new wrapper built on every render
  sees what earlier wrappers stored. Expiry is lazy: only `Get` looks at an
  entry's age, and it removes the entry it finds stale.

  The clock (`Date.now()`) is the parameter `now`, in epoch milliseconds, and
  the JSON encoding of an entry is left out: entries hold typed data.
 */
module TimedCache {

  import opened Nullable

  /** Thirty minutes in milliseconds: `30 * 60 * 1000`. */
  const MaxAgeMs: int := 30 * 60 * 1000

  /** What `set` writes under a key: `{timestamp, data}`. */
  datatype Entry<+T> = Entry(timestamp: int, data: T)

  /** The staleness test of `get`: strictly older than thirty minutes. */
  predicate Expired<T>(e: Entry<T>, now: int) {
    now - e.timestamp > MaxAgeMs
  }

  // ---------------------------------------------------------------------------
  // The three operations, as functions of the stored map

  /** What `get(key)` returns at time `now`. */
  function GetValue<T>(items: map<string, Entry<T>>, key: string, now: int): (r: Option<T>)
    ensures r.Some? ==> key in items && r.value == items[key].data
    ensures r.Some? ==> now - items[key].timestamp <= MaxAgeMs
    ensures r.None? ==> key !in items || now - items[key].timestamp > MaxAgeMs
  {
    if key !in items then None
    else if Expired(items[key], now) then None
    else Some(items[key].data)
  }

  /** The store after `get(key)` at time `now`: a stale entry is gone, and
      nothing else changes. */
  function GetStore<T>(items: map<string, Entry<T>>, key: string, now: int): (r: map<string, Entry<T>>)
    ensures r.Keys <= items.Keys && items.Keys - r.Keys <= {key}
    ensures forall k :: k in r ==> r[k] == items[k]
    ensures key in r <==> key in items && now - items[key].timestamp <= MaxAgeMs
  {
    if key in items && Expired(items[key], now) then items - {key} else items
  }

  /** The store after `set(key, data)` at time `now`. */
  function SetStore<T>(items: map<string, Entry<T>>, key: string, data: T, now: int): (r: map<string, Entry<T>>)
    ensures r.Keys == items.Keys + {key}
    ensures key in r && r[key] == Entry(now, data)
    ensures forall k :: k in items && k != key ==> r[k] == items[k]
  {
    items[key := Entry(now, data)]
  }

  /** The store after `clear(key)`. */
  function ClearStore<T>(items: map<string, Entry<T>>, key: string): (r: map<string, Entry<T>>)
    ensures r.Keys == items.Keys - {key}
    ensures forall k :: k in r ==> r[k] == items[k]
    ensures key !in items ==> r == items
  {
    items - {key}
  }

  // ---------------------------------------------------------------------------
  // localStorage and the wrapper

  /** The browser's `localStorage`, holding cache entries by key. */
  class Storage<T> {
    var items: map<string, Entry<T>>

    constructor ()
      ensures items == map[]
    {
      items := map[];
    }

    /** `localStorage.getItem(key)`: the entry, or `null` when there is none. */
    method GetItem(key: string) returns (r: Option<Entry<T>>)
      ensures r.Some? <==> key in items
      ensures r.Some? ==> r.value == items[key]
    {
      r := if key in items then Some(items[key]) else None;
    }

    /** `localStorage.setItem(key, entry)`. */
    method SetItem(key: string, entry: Entry<T>)
      modifies this
      ensures items == old(items)[key := entry]
    {
      items := items[key := entry];
    }

    /** `localStorage.removeItem(key)`. */
    method RemoveItem(key: string)
      modifies this
      ensures items == old(items) - {key}
    {
      items := items - {key};
    }
  }

  /** The object `createCache()` returns: `get`, `set` and `clear` over
      `localStorage`. */
  class Cache<T> {
    const store: Storage<T>

    /** `createCache()`. */
    constructor (store: Storage<T>)
      ensures this.store == store
    {
      this.store := store;
    }

    /** `cache.get(key)`: the data of a fresh entry, else `null`; a stale entry
        is removed. */
    method Get(key: string, now: int) returns (r: Option<T>)
      modifies store
      ensures r == GetValue(old(store.items), key, now)
      ensures store.items == GetStore(old(store.items), key, now)
    {
      var item := store.GetItem(key);
      if item.None? {
        return None;
      }
      var parsed := item.value;
      if now - parsed.timestamp > MaxAgeMs {
        store.RemoveItem(key);
        return None;
      }
      return Some(parsed.data);
    }

    /** `cache.set(key, data)`: stores `{timestamp: now, data}`. */
    method Set(key: string, data: T, now: int)
      modifies store
      ensures store.items == SetStore(old(store.items), key, data, now)
    {
      var item := Entry(now, data);
      store.SetItem(key, item);
    }

    /** `cache.clear(key)`. */
    method Clear(key: string)
      modifies store
      ensures store.items == ClearStore(old(store.items), key)
    {
      store.RemoveItem(key);
    }
  }

  // ---------------------------------------------------------------------------
  // Properties relating the operations

  /** A key that was never set reads as `null` and leaves the store as it was. */
  lemma GetMissing<T>(items: map<string, Entry<T>>, key: string, now: int)
    requires key !in items
    ensures GetValue(items, key, now) == None
    ensures GetStore(items, key, now) == items
  {
  }

  /** A stale entry reads as `null` and is removed, so every later read of the
      same key, at any time, is `null` too and changes nothing more. */
  lemma GetExpired<T>(items: map<string, Entry<T>>, key: string, now: int, later: int)
    requires key in items && Expired(items[key], now)
    ensures GetValue(items, key, now) == None
    ensures GetStore(items, key, now) == items - {key}
    ensures GetValue(GetStore(items, key, now), key, later) == None
    ensures GetStore(GetStore(items, key, now), key, later) == GetStore(items, key, now)
  {
  }

  /** A fresh read returns the stored data unchanged and leaves the store as it was. */
  lemma GetFresh<T>(items: map<string, Entry<T>>, key: string, now: int)
    requires key in items && !Expired(items[key], now)
    ensures GetValue(items, key, now) == Some(items[key].data)
    ensures GetStore(items, key, now) == items
  {
  }

  /** `set(key, data)` at `t` followed by `get(key)` at `later`, with
      `later - t <= MaxAgeMs`, returns `data` and keeps the entry. */
  lemma SetThenGetFresh<T>(items: map<string, Entry<T>>, key: string, data: T, t: int, later: int)
    requires later - t <= MaxAgeMs
    ensures GetValue(SetStore(items, key, data, t), key, later) == Some(data)
    ensures GetStore(SetStore(items, key, data, t), key, later) == SetStore(items, key, data, t)
  {
  }

  /** The same read one millisecond past the window returns `null` and purges the key. */
  lemma SetThenGetExpired<T>(items: map<string, Entry<T>>, key: string, data: T, t: int, later: int)
    requires later - t > MaxAgeMs
    ensures GetValue(SetStore(items, key, data, t), key, later) == None
    ensures GetStore(SetStore(items, key, data, t), key, later) == items - {key}
  {
  }

  /** The boundary: an entry exactly thirty minutes old is still fresh. */
  lemma FreshnessBoundary<T>(e: Entry<T>)
    ensures !Expired(e, e.timestamp + 1800000)
    ensures Expired(e, e.timestamp + 1800001)
  {
  }

  /** `set` replaces whatever was stored under the key before. */
  lemma SetOverwrites<T>(items: map<string, Entry<T>>, key: string, d1: T, t1: int, d2: T, t2: int)
    ensures SetStore(SetStore(items, key, d1, t1), key, d2, t2) == SetStore(items, key, d2, t2)
  {
  }

  /** No operation on one key changes what a read of another key returns. */
  lemma OtherKeysUnaffected<T>(items: map<string, Entry<T>>, key: string, other: string, data: T, t: int, now: int)
    requires other != key
    ensures GetValue(SetStore(items, key, data, t), other, now) == GetValue(items, other, now)
    ensures GetValue(ClearStore(items, key), other, now) == GetValue(items, other, now)
    ensures GetValue(GetStore(items, key, t), other, now) == GetValue(items, other, now)
  {
  }

  /** After `clear(key)` the key reads as `null`. */
  lemma ClearThenGet<T>(items: map<string, Entry<T>>, key: string, now: int)
    ensures GetValue(ClearStore(items, key), key, now) == None
  {
  }

  /** Two wrappers over one store behave as one cache: what the first sets,
      a wrapper created later returns. */
  method WrappersShareStore<T>(store: Storage<T>, key: string, data: T, t: int, later: int)
      returns (r: Option<T>)
    requires later - t <= MaxAgeMs
    modifies store
    ensures r == Some(data)
    ensures store.items == old(store.items)[key := Entry(t, data)]
  {
    var first := new Cache(store);
    first.Set(key, data, t);
    var second := new Cache(store);
    r := second.Get(key, later);
  }
}
