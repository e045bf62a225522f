/**
 * The documentation cache the live tools share (`getFromCache` and
 * `saveToCache`).  The get tool stores whole scrape results under
 * `component:<name>` and `doc:<name>`; the utility tool stores
 * `{ markdown }` objects under `install:<framework>`, `migration:general`,
 * `theming:general` and `cli:general`.  The cache is a dictionary the
 * tools read and overwrite; expiry is not modelled.
 */
module DocCache {
  import opened Wrappers
  import opened Strings
  import opened DocFetcher

  /** A stored value: a whole scrape result, or only its markdown. */
  datatype CacheValue = Scraped(result: ScrapeResult) | Saved(markdown: string)

  /** `getFromCache(key)`: the stored value, or nothing. */
  function Find(entries: map<string, CacheValue>, key: string): (v: Option<CacheValue>)
    ensures v.Some? <==> key in entries
    ensures v.Some? ==> v.value == entries[key]
  {
    if key in entries then Some(entries[key]) else None
  }

  /** The keys under which the get tool stores scrape results. */
  predicate IsResultKey(key: string) {
    IsPrefix("component:", key) || IsPrefix("doc:", key)
  }

  /** The keys under which the utility tool stores markdown. */
  predicate IsContentKey(key: string) {
    IsPrefix("install:", key) || key == "migration:general" || key == "theming:general" || key == "cli:general"
  }

  /** No key is written by both tools, so neither reads the other's kind of value. */
  lemma KeyKindsDisjoint(key: string)
    ensures !(IsResultKey(key) && IsContentKey(key))
  {
    if IsPrefix("component:", key) {
      assert key[0] == 'c' && key[1] == 'o';
    }
    if IsPrefix("doc:", key) {
      assert key[0] == 'd';
    }
  }

  /** Every stored value is of the kind its key promises and carries markdown. */
  predicate Healthy(entries: map<string, CacheValue>) {
    forall key | key in entries ::
      (IsResultKey(key) ==> entries[key].Scraped? && Usable(entries[key].result))
      && (IsContentKey(key) ==> entries[key].Saved? && entries[key].markdown != "")
  }

  /** The shared cache. */
  class Cache {
    var entries: map<string, CacheValue>

    constructor ()
      ensures entries == map[]
    {
      entries := map[];
    }

    /** `getFromCache(key)`. */
    method Get(key: string) returns (v: Option<CacheValue>)
      ensures v == Find(entries, key)
    {
      v := if key in entries then Some(entries[key]) else None;
    }

    /** `saveToCache(key, value)`: the entry is replaced, every other entry kept. */
    method Save(key: string, value: CacheValue)
      modifies this
      ensures entries == old(entries)[key := value]
    {
      entries := entries[key := value];
    }
  }
}
