/**
 * The weather cache utility: a module-level expiring cache whose entries stay valid for thirty
 * minutes, keyed by an opaque location id.
 */
module WeatherCacheUtil {

  import opened Wrappers
  import opened ExpiringCache

  /** The utility's expiry: 30 minutes in milliseconds. */
  const Expiry: int := 30 * 60 * 1000

  /** The utility's cache, empty at start-up. */
  method NewWeatherCache<D>() returns (c: Cache<D>)
    ensures fresh(c) && c.ttl == Expiry && c.entries == map[]
  {
    c := new Cache(Expiry);
  }

  /**
   * With the thirty-minute expiry an entry is served up to and including thirty minutes after
   * it was stored, and removed by the first read after that.
   */
  lemma ThirtyMinuteBoundary<D>(entries: map<string, Entry<D>>, id: string, d: D, stored: int)
    ensures var m := entries[id := Entry(d, stored)];
      Read(m, id, stored + Expiry, Expiry) == Some(d) && AfterRead(m, id, stored + Expiry, Expiry) == m
    ensures var m := entries[id := Entry(d, stored)];
      Read(m, id, stored + Expiry + 1, Expiry) == None && AfterRead(m, id, stored + Expiry + 1, Expiry) == entries - {id}
  {
    var m := entries[id := Entry(d, stored)];
    assert m - {id} == entries - {id};
  }

  /** Once a read has removed an expired entry, no later read finds it until it is stored again. */
  lemma ExpiredStaysGone<D>(entries: map<string, Entry<D>>, id: string, now: int, later: int)
    requires id in entries && now - entries[id].timestamp > Expiry
    ensures Read(AfterRead(entries, id, now, Expiry), id, later, Expiry) == None
  {
  }
}
