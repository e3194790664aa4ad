/**
 * The Drupal collaborators the client talks to, reduced to what it observes:
 * a logger channel that records error entries and a cache backend whose
 * `get` serves an item only while it has not expired.
 */
module Drupal {
  import opened Php

  /** One error logged on a logger channel: the message template and its placeholders. */
  datatype LogEntry = LogEntry(channel: string, message: string, context: seq<(string, string)>)

  /** A cache item as `get` returns it. */
  datatype CacheEntry = CacheEntry(data: Value, expire: int)

  /** The expire value of an item that never expires (Cache::PERMANENT). */
  const PERMANENT: int := -1

  /** An item is valid when it is permanent or its expiry is not before the request time. */
  predicate Valid(entry: CacheEntry, now: int) {
    entry.expire == PERMANENT || entry.expire >= now
  }

  /** get($cid) at request time `now`: the stored item while it is valid, FALSE (None) otherwise. */
  function Get(cache: map<string, CacheEntry>, key: string, now: int): (r: Option<CacheEntry>)
    ensures r.Some? <==> key in cache && Valid(cache[key], now)
    ensures r.Some? ==> r.value == cache[key]
  {
    if key in cache && Valid(cache[key], now) then Some(cache[key]) else None
  }

  /** One call `set(key, data, expire)` on the cache backend. */
  datatype CacheSet = CacheSet(key: string, data: Value, expire: int)

  /** The cache after an optional `set`. */
  function Stored(cache: map<string, CacheEntry>, store: Option<CacheSet>): (r: map<string, CacheEntry>)
    ensures store.None? ==> r == cache
    ensures store.Some? ==> r.Keys == cache.Keys + {store.value.key} &&
                            r[store.value.key] == CacheEntry(store.value.data, store.value.expire) &&
                            forall k :: k in cache && k != store.value.key ==> r[k] == cache[k]
  {
    match store
    case None => cache
    case Some(s) => cache[s.key := CacheEntry(s.data, s.expire)]
  }
}
