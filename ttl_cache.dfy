/** The per-key caches of backend/app.py: `sentiment_cache` and `fundamental_cache`,
    dictionaries from a ticker to a value and the time it was stored. A lookup hits when
    the key is present and the entry is younger than `CACHE_DURATION`. That name is bound
    twice at module level (600, then 300); both caches read it when called, so both use
    300 seconds. */
module TtlCache {
  import opened Wrappers
  import Groq

  const CacheDuration: real := 300.0

  /** A stored value and the clock reading stored with it. */
  datatype Entry<V> = Entry(value: V, timestamp: real)

  class Cache<V> {
    var entries: map<string, Entry<V>>

    constructor()
      ensures entries == map[]
    {
      entries := map[];
    }

    /** The cache answers for `key` at time `now`. */
    predicate Hit(key: string, now: real)
      reads this
    {
      key in entries && now - entries[key].timestamp < CacheDuration
    }

    /** The cached value for `key`, when it is still fresh at `now`. */
    method Lookup(key: string, now: real) returns (r: Option<V>)
      ensures r.Some? <==> Hit(key, now)
      ensures r.Some? ==> r.value == entries[key].value
    {
      if key in entries && now - entries[key].timestamp < CacheDuration {
        r := Some(entries[key].value);
      } else {
        r := None;
      }
    }

    /** `cache[key] = {value, timestamp}`: the entry for `key` is replaced and every other
        entry is kept. */
    method Store(key: string, value: V, timestamp: real)
      modifies this
      ensures entries == old(entries)[key := Entry(value, timestamp)]
    {
      entries := entries[key := Entry(value, timestamp)];
    }
  }

  /** `analyze_sentiment_with_cache(ticker, text, retries, delay)`. `client(text, i)` is
      what the completion client answers to the prompt `text` on attempt `i`. A hit
      returns the stored text and `true`; a miss runs `groq_generate_content(text)` with
      its default three retries and a one-second delay (the `retries` and `delay`
      arguments are not passed on), stores the result with the clock read at entry, and
      returns it with `false`. */
  method AnalyzeSentimentWithCache(cache: Cache<string>, ticker: string, text: string, retries: int, delay: real,
                                   now: real, client: (string, nat) -> Groq.Attempt)
    returns (result: string, hit: bool)
    modifies cache
    ensures hit <==> old(cache.Hit(ticker, now))
    ensures hit ==> result == old(cache.entries)[ticker].value && cache.entries == old(cache.entries)
    ensures !hit ==>
              && result == Groq.Generate((i: nat) => client(text, i), 3, 1.0).text
              && cache.entries == old(cache.entries)[ticker := Entry(result, now)]
  {
    var cached := cache.Lookup(ticker, now);
    if cached.Some? {
      return cached.value, true;
    }
    var sleeps, calls;
    result, sleeps, calls := Groq.GenerateContent((i: nat) => client(text, i), 3, 1.0);
    cache.Store(ticker, result, now);
    hit := false;
  }

  /** A second call for the same ticker within the cache lifetime of a miss is answered
      from the cache with the text the miss computed. */
  method SentimentServedWithinLifetime(cache: Cache<string>, ticker: string, text: string, text2: string,
                                       now: real, later: real, client: (string, nat) -> Groq.Attempt)
    returns (first: string, second: string, secondHit: bool)
    requires now <= later < now + CacheDuration
    modifies cache
    ensures !old(cache.Hit(ticker, now)) ==> secondHit && second == first
  {
    var hit;
    first, hit := AnalyzeSentimentWithCache(cache, ticker, text, 3, 1.0, now, client);
    second, secondHit := AnalyzeSentimentWithCache(cache, ticker, text2, 3, 1.0, later, client);
  }
}
