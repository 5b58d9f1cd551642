/**
 * The state the weather route keeps between requests: its weather cache (15 minutes), the cache
 * decision of `fetchWeatherData`, and the per-session conversation memory capped at ten
 * messages.
 */
module RouteState {

  import opened Wrappers
  import opened Text
  import opened Js
  import opened Context
  import opened ExpiringCache

  /** `CACHE_DURATION`: 15 minutes in milliseconds. */
  const CacheDuration: int := 15 * 60 * 1000

  /** The weather cache of the route, empty at start-up. */
  method NewWeatherCache<D>() returns (c: Cache<D>)
    ensures fresh(c) && c.ttl == CacheDuration && c.entries == map[]
  {
    c := new Cache(CacheDuration);
  }

  /** The route's cache reads keep entries exactly 15 minutes old and drop older ones. */
  lemma RouteCacheBoundary<D>(entries: map<string, Entry<D>>, key: string, d: D, stored: int)
    ensures Read(entries[key := Entry(d, stored)], key, stored + CacheDuration, CacheDuration) == Some(d)
    ensures Read(entries[key := Entry(d, stored)], key, stored + CacheDuration + 1, CacheDuration) == None
  {
  }

  // ---------------------------------------------------------------- fetchWeatherData

  /** The cache key of `fetchWeatherData`: `${location.city}-${location.country}`. */
  function FetchKey(place: Place): (r: string)
    ensures place.city.Undefined? ==> StartsWith(r, "undefined-")
    ensures place.country.Undefined? ==> |r| >= 10 && r[|r| - 10..] == "-undefined"
  {
    Show(place.city) + "-" + Show(place.country)
  }

  /**
   * The key does not tell the city from the country when either holds a hyphen: two different
   * places share one cache entry.
   */
  lemma FetchKeyAmbiguous()
    ensures Place(Str("a-b"), Str("c")) != Place(Str("a"), Str("b-c"))
    ensures FetchKey(Place(Str("a-b"), Str("c"))) == FetchKey(Place(Str("a"), Str("b-c")))
  {
    assert "a-b" + "-" + "c" == "a" + "-" + "b-c";
  }

  /** What the OpenWeatherMap requests give: the assembled readings, or the error message. */
  datatype Fetch<D> = Fetched(data: D) | FetchFailed(message: string)

  /** `fetchWeatherData` serves a cached entry without a request only while it is strictly younger than 15 minutes. */
  predicate FreshForFetch<D>(entries: map<string, Entry<D>>, key: string, now: int)
  {
    key in entries && now - entries[key].timestamp < CacheDuration
  }

  /**
   * What `fetchWeatherData` resolves to: a fresh entry; otherwise the fetched readings; when the
   * requests fail, any entry for the place however old; otherwise the error.
   */
  function FetchResult<D>(entries: map<string, Entry<D>>, place: Place, now: int, fetch: Fetch<D>)
    : (r: Result<D, string>)
    ensures r.Err? <==> FetchKey(place) !in entries && fetch.FetchFailed?
    ensures FreshForFetch(entries, FetchKey(place), now) ==> r == Ok(entries[FetchKey(place)].data)
  {
    var key := FetchKey(place);
    if FreshForFetch(entries, key, now) then Ok(entries[key].data)
    else
      match fetch
      case Fetched(d) => Ok(d)
      case FetchFailed(m) =>
        if key in entries then Ok(entries[key].data)
        else Err("Failed to fetch weather data: " + m)
  }

  /**
   * The cache after `fetchWeatherData`: only fetched readings are stored, stamped with
   * `storedAt`, the clock read again once the requests have returned.
   */
  function FetchStore<D>(entries: map<string, Entry<D>>, place: Place, now: int, storedAt: int, fetch: Fetch<D>)
    : (m: map<string, Entry<D>>)
    ensures m.Keys == entries.Keys + (if fetch.Fetched? then {FetchKey(place)} else {})
            || m == entries
  {
    var key := FetchKey(place);
    if FreshForFetch(entries, key, now) then entries
    else
      match fetch
      case Fetched(d) => entries[key := Entry(d, storedAt)]
      case FetchFailed(_) => entries
  }

  /**
   * The cache decision of `fetchWeatherData(location)`: `now` is the clock at the freshness
   * test, `fetch` what the requests give when they are made, and `storedAt` the clock when the
   * fetched readings are stored.
   */
  method FetchWeatherData<D>(cache: Cache<D>, place: Place, now: int, storedAt: int, fetch: Fetch<D>)
    returns (r: Result<D, string>)
    modifies cache
    ensures r == FetchResult(old(cache.entries), place, now, fetch)
    ensures cache.entries == FetchStore(old(cache.entries), place, now, storedAt, fetch)
  {
    var key := FetchKey(place);
    if key in cache.entries && now - cache.entries[key].timestamp < CacheDuration {
      return Ok(cache.entries[key].data);
    }
    match fetch {
      case Fetched(d) =>
        cache.entries := cache.entries[key := Entry(d, storedAt)];
        r := Ok(d);
      case FetchFailed(m) =>
        if key in cache.entries {
          r := Ok(cache.entries[key].data);
        } else {
          r := Err("Failed to fetch weather data: " + m);
        }
    }
  }

  /** A fresh entry answers without a request: what the requests would give does not matter. */
  lemma FreshEntrySkipsRequests<D>(entries: map<string, Entry<D>>, place: Place, now: int, storedAt: int,
                                   f1: Fetch<D>, f2: Fetch<D>)
    requires FreshForFetch(entries, FetchKey(place), now)
    ensures FetchResult(entries, place, now, f1) == FetchResult(entries, place, now, f2)
    ensures FetchStore(entries, place, now, storedAt, f1) == entries
  {
  }

  /** A failed request falls back on the stored entry however old it is, and stores nothing. */
  lemma StaleEntryServedOnFailure<D>(entries: map<string, Entry<D>>, place: Place, now: int, storedAt: int,
                                     message: string)
    requires FetchKey(place) in entries
    ensures FetchResult(entries, place, now, FetchFailed(message)) == Ok(entries[FetchKey(place)].data)
    ensures FetchStore(entries, place, now, storedAt, FetchFailed(message)) == entries
  {
  }

  /**
   * Fetched readings are served and stored under the time they are stored, not the time of the
   * freshness test: a later call is answered from the cache while it comes less than 15 minutes
   * after the store, however long the requests took.
   */
  lemma FetchedReadingsCached<D>(entries: map<string, Entry<D>>, place: Place, now: int, storedAt: int, d: D,
                                 later: int, next: Fetch<D>)
    requires !FreshForFetch(entries, FetchKey(place), now)
    requires later - storedAt < CacheDuration
    ensures FetchResult(entries, place, now, Fetched(d)) == Ok(d)
    ensures FetchStore(entries, place, now, storedAt, Fetched(d))[FetchKey(place)] == Entry(d, storedAt)
    ensures FetchResult(FetchStore(entries, place, now, storedAt, Fetched(d)), place, later, next) == Ok(d)
  {
  }

  /**
   * `fetchWeatherData` and `getCachedWeatherData` disagree at the boundary: an entry exactly 15
   * minutes old is served by the latter and re-fetched by the former.
   */
  lemma FetchBoundaryStricter<D>(entries: map<string, Entry<D>>, place: Place, d: D, stored: int)
    ensures var m := entries[FetchKey(place) := Entry(d, stored)];
      Read(m, FetchKey(place), stored + CacheDuration, CacheDuration) == Some(d)
      && !FreshForFetch(m, FetchKey(place), stored + CacheDuration)
  {
  }

  // ---------------------------------------------------------------- session memory

  /** A stored message: `{ type, content }` with type "human" or "ai". */
  datatype Message = Message(kind: string, content: Value)

  /** The number of messages a session keeps. */
  const MemoryCap: nat := 10

  /** The list `getMemoryForSession` hands out: the stored one, or a new empty one. */
  function SessionHistory(sessions: map<string, seq<Message>>, id: string): seq<Message>
  {
    if id in sessions then sessions[id] else []
  }

  /** The exchange `saveToMemory` appends. */
  function Exchange(question: Value, answer: Value): seq<Message>
  {
    [Message("human", question), Message("ai", answer)]
  }

  /**
   * A history after one more exchange: the exchange appended, then the oldest messages dropped
   * until ten are left.
   */
  function Remembered(history: seq<Message>, question: Value, answer: Value): (r: seq<Message>)
    ensures |r| <= MemoryCap
    ensures |r| >= 2 && r[|r| - 2..] == Exchange(question, answer)
    ensures var full := history + Exchange(question, answer);
      |r| <= |full| && r == full[|full| - |r|..]
      && |r| == (if |full| > MemoryCap then MemoryCap else |full|)
    ensures |history| <= MemoryCap - 2 ==> r == history + Exchange(question, answer)
  {
    var full := history + Exchange(question, answer);
    if |full| > MemoryCap then full[|full| - MemoryCap..] else full
  }

  class SessionMemory {
    /** `sessionMemory`: the message list of each session id. */
    var sessions: map<string, seq<Message>>

    constructor()
      ensures sessions == map[]
    {
      sessions := map[];
    }

    /** `getMemoryForSession(id)`: an unknown id is given an empty list first. */
    method GetMemoryForSession(id: string) returns (h: seq<Message>)
      modifies this
      ensures h == SessionHistory(old(sessions), id)
      ensures sessions == old(sessions)[id := h]
    {
      if id !in sessions {
        sessions := sessions[id := []];
      }
      h := sessions[id];
    }

    /** `saveToMemory(id, question, answer)`: push both messages, then shift while more than ten. */
    method SaveToMemory(id: string, question: Value, answer: Value)
      modifies this
      ensures sessions == old(sessions)[id := Remembered(SessionHistory(old(sessions), id), question, answer)]
    {
      var memory := GetMemoryForSession(id);
      ghost var full := memory + Exchange(question, answer);
      memory := memory + [Message("human", question)];
      memory := memory + [Message("ai", answer)];
      while |memory| > MemoryCap
        invariant |memory| <= |full| && memory == full[|full| - |memory|..]
        invariant |full| > MemoryCap ==> |memory| >= MemoryCap
        invariant |full| <= MemoryCap ==> memory == full
      {
        memory := memory[1..];
      }
      sessions := sessions[id := memory];
    }

    /** `clearMemory(id)`. */
    method ClearMemory(id: string)
      modifies this
      ensures sessions == old(sessions) - {id}
    {
      sessions := sessions - {id};
    }
  }

  /** Saving touches only the session saved to. */
  lemma SaveKeepsOtherSessions(sessions: map<string, seq<Message>>, id: string, other: string, question: Value, answer: Value)
    requires other != id
    ensures SessionHistory(sessions[id := Remembered(SessionHistory(sessions, id), question, answer)], other)
      == SessionHistory(sessions, other)
  {
  }

  /** After a clear the session starts again from an empty list. */
  lemma ClearedSessionIsEmpty(sessions: map<string, seq<Message>>, id: string)
    ensures SessionHistory(sessions - {id}, id) == []
  {
  }

  /** Five exchanges fill the memory; the sixth pushes out the first. */
  lemma SixthExchangeDropsFirst(history: seq<Message>, question: Value, answer: Value)
    requires |history| == MemoryCap
    ensures Remembered(history, question, answer) == history[2..] + Exchange(question, answer)
  {
  }
}
