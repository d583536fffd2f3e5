/**
 * `TtlCache` (backup/handlers.py): the cache of analysis results of the
 * legacy single-photo path, keyed by the digest of the photo's id. The
 * module-level dictionary is an object here, its lifetime
 * (`CACHE_TIMEOUT_SECONDS`, defined in config.py) a constructor parameter,
 * and the clock the parameter `now`, in seconds. Computing the MD5 key is
 * not modelled: keys arrive as strings.
 */
module TtlCache {
  import opened Common
  import opened Food

  /** A cached value: `{'result': ..., 'timestamp': ...}`. */
  datatype Entry = Entry(result: Analysis, timestamp: int)

  /** The entry is still fresh at `now`: strictly less than `timeout` seconds old. */
  predicate Fresh(e: Entry, now: int, timeout: int)
  {
    now - e.timestamp < timeout
  }

  /** What a lookup answers: the result of a fresh entry, nothing otherwise. */
  function Lookup(entries: map<string, Entry>, key: string, now: int, timeout: int): (r: Option<Analysis>)
    ensures r.Some? <==> key in entries && Fresh(entries[key], now, timeout)
    ensures r.Some? ==> r.value == entries[key].result
  {
    if key in entries && Fresh(entries[key], now, timeout) then Some(entries[key].result) else None
  }

  /** The entries after a lookup: an expired entry for the key is gone, nothing else changes. */
  function AfterLookup(entries: map<string, Entry>, key: string, now: int, timeout: int): (r: map<string, Entry>)
    ensures key in entries && !Fresh(entries[key], now, timeout) ==> key !in r
    ensures forall k :: k != key ==> (k in r <==> k in entries) && (k in r ==> r[k] == entries[k])
    ensures Lookup(entries, key, now, timeout).Some? || key !in entries ==> r == entries
  {
    if key in entries && !Fresh(entries[key], now, timeout) then entries - {key} else entries
  }

  /**
   * A result saved at `t` is found under its key exactly while it is less
   * than `timeout` seconds old, and once expired it stays expired; other
   * keys answer as before the save.
   */
  lemma SaveThenLookup(entries: map<string, Entry>, key: string, other: string, result: Analysis,
                       t: int, now: int, later: int, timeout: int)
    requires now <= later && other != key
    ensures Lookup(entries[key := Entry(result, t)], key, now, timeout) == (if now - t < timeout then Some(result) else None)
    ensures Lookup(entries[key := Entry(result, t)], other, now, timeout) == Lookup(entries, other, now, timeout)
    ensures Lookup(entries, key, now, timeout).None? ==> Lookup(entries, key, later, timeout).None?
  {
  }

  class AnalysisCache {
    const timeout: int
    var entries: map<string, Entry>

    constructor (timeout: int)
      ensures this.timeout == timeout && entries == map[]
    {
      this.timeout := timeout;
      entries := map[];
    }

    /**
     * `get_from_cache`: the result when the entry is fresh; an expired entry
     * is deleted and a missing key leaves the cache as it was.
     */
    method GetFromCache(key: string, now: int) returns (r: Option<Analysis>)
      modifies this
      ensures r == Lookup(old(entries), key, now, timeout)
      ensures entries == AfterLookup(old(entries), key, now, timeout)
    {
      if key in entries {
        var cached := entries[key];
        if now - cached.timestamp < timeout {
          return Some(cached.result);
        } else {
          entries := entries - {key};
        }
      }
      return None;
    }

    /** `save_to_cache`: the key now holds the result stamped with the current time; other keys are untouched. */
    method SaveToCache(key: string, result: Analysis, now: int)
      modifies this
      ensures entries == old(entries)[key := Entry(result, now)]
      ensures timeout > 0 ==> Lookup(entries, key, now, timeout) == Some(result)
    {
      entries := entries[key := Entry(result, now)];
    }
  }
}
