/**
 * A map of timestamped entries that expire: the weather caches of the weather route (15
 * minutes) and of the utility module (30 minutes) are two instances. A read of an expired entry
 * deletes it; an entry exactly `ttl` milliseconds old is still served.
 */
module ExpiringCache {

  import opened Wrappers

  /** A cached value and the time it was stored, in milliseconds. */
  datatype Entry<D> = Entry(data: D, timestamp: int)

  /** An entry is expired at `now` once more than `ttl` milliseconds have passed since it was stored. */
  predicate Expired<D>(e: Entry<D>, now: int, ttl: int)
  {
    now - e.timestamp > ttl
  }

  /** What a read of `key` at `now` returns. */
  function Read<D>(entries: map<string, Entry<D>>, key: string, now: int, ttl: int): (r: Option<D>)
    ensures r.Some? <==> key in entries && now - entries[key].timestamp <= ttl
    ensures r.Some? ==> r.value == entries[key].data
  {
    if key !in entries then None
    else if Expired(entries[key], now, ttl) then None
    else Some(entries[key].data)
  }

  /** The entries after a read of `key` at `now`: only an expired entry for `key` is dropped. */
  function AfterRead<D>(entries: map<string, Entry<D>>, key: string, now: int, ttl: int)
    : (m: map<string, Entry<D>>)
    ensures m.Keys <= entries.Keys && entries.Keys - m.Keys <= {key}
    ensures forall k :: k in m ==> m[k] == entries[k]
  {
    if key in entries && Expired(entries[key], now, ttl) then entries - {key} else entries
  }

  class Cache<D> {
    /** How long an entry stays valid, in milliseconds. */
    const ttl: int
    var entries: map<string, Entry<D>>

    constructor(ttl: int)
      ensures this.ttl == ttl && entries == map[]
    {
      this.ttl := ttl;
      entries := map[];
    }

    /** `getCachedWeatherData(key)` at time `now`: the data, or `None` for `null`. */
    method Get(key: string, now: int) returns (r: Option<D>)
      modifies this
      ensures r == Read(old(entries), key, now, ttl)
      ensures entries == AfterRead(old(entries), key, now, ttl)
    {
      if key !in entries {
        return None;
      }
      var cached := entries[key];
      if now - cached.timestamp > ttl {
        entries := entries - {key};
        return None;
      }
      r := Some(cached.data);
    }

    /** `cacheWeatherData(key, data)` at time `now`. */
    method Put(key: string, data: D, now: int)
      modifies this
      ensures entries == old(entries)[key := Entry(data, now)]
    {
      entries := entries[key := Entry(data, now)];
    }

    /** `weatherCache.clear()`. */
    method Clear()
      modifies this
      ensures entries == map[]
    {
      entries := map[];
    }
  }

  /** A missing key reads as nothing and leaves the entries as they are. */
  lemma AbsentKey<D>(entries: map<string, Entry<D>>, key: string, now: int, ttl: int)
    requires key !in entries
    ensures Read(entries, key, now, ttl) == None && AfterRead(entries, key, now, ttl) == entries
  {
  }

  /** An expired entry reads as nothing and is removed; the other entries stay. */
  lemma ExpiredEntryRemoved<D>(entries: map<string, Entry<D>>, key: string, now: int, ttl: int)
    requires key in entries && now - entries[key].timestamp > ttl
    ensures Read(entries, key, now, ttl) == None
    ensures key !in AfterRead(entries, key, now, ttl)
    ensures AfterRead(entries, key, now, ttl) == entries - {key}
  {
  }

  /**
   * An entry at most `ttl` old, the boundary included, is served as stored and the entries do
   * not change.
   */
  lemma FreshEntryServed<D>(entries: map<string, Entry<D>>, key: string, now: int, ttl: int)
    requires key in entries && now - entries[key].timestamp <= ttl
    ensures Read(entries, key, now, ttl) == Some(entries[key].data)
    ensures AfterRead(entries, key, now, ttl) == entries
  {
  }

  /** Storing and then reading at the same instant gives the data back, for any `ttl` that is not negative. */
  lemma PutThenRead<D>(entries: map<string, Entry<D>>, key: string, data: D, now: int, ttl: int)
    requires ttl >= 0
    ensures Read(entries[key := Entry(data, now)], key, now, ttl) == Some(data)
  {
  }

  /** Storing under one key does not change what is read under another. */
  lemma PutKeepsOthers<D>(entries: map<string, Entry<D>>, key: string, other: string, data: D, now: int, later: int, ttl: int)
    requires other != key
    ensures Read(entries[key := Entry(data, now)], other, later, ttl) == Read(entries, other, later, ttl)
  {
  }

  /** After a clear every key reads as nothing. */
  lemma ClearedReadsNothing<D>(key: string, now: int, ttl: int)
    ensures Read<D>(map[], key, now, ttl) == None
  {
  }

  /** A read drops at most the key it reads: entries it keeps read the same at any time. */
  lemma ReadKeepsOthers<D>(entries: map<string, Entry<D>>, key: string, other: string, now: int, later: int, ttl: int)
    requires other != key
    ensures Read(AfterRead(entries, key, now, ttl), other, later, ttl) == Read(entries, other, later, ttl)
  {
  }

  /** Reading twice at the same instant gives the same answer and changes nothing more. */
  lemma ReadIdempotent<D>(entries: map<string, Entry<D>>, key: string, now: int, ttl: int)
    ensures var m := AfterRead(entries, key, now, ttl);
      Read(m, key, now, ttl) == Read(entries, key, now, ttl) && AfterRead(m, key, now, ttl) == m
  {
  }
}
