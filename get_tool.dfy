/**
 * The `shadcn-svelte-get` tool (src/mastra/tools/shadcn-svelte-get.ts): one
 * component page or one documentation section, served from the cache when
 * the cache holds it, otherwise fetched from the live site; a documentation
 * section is looked for under four candidate paths in order.  Only a result
 * that is successful and carries markdown is stored.
 *
 * `Retrieve` is the specification of one lookup; `Execute` is the tool
 * itself, proved to follow it.
 */
module GetTool {
  import opened Wrappers
  import opened Strings
  import opened DocFetcher
  import opened Candidates
  import opened DocCache

  /** The cache key of a component page. */
  function ComponentKey(name: string): string {
    "component:" + name
  }

  /** The cache key of a documentation section. */
  function DocKey(name: string): string {
    "doc:" + name
  }

  /** The cache key the tool uses for `kind`. */
  function KeyFor(kind: string, name: string): (key: string)
    ensures IsResultKey(key)
  {
    if kind == "component" then ComponentKey(name) else DocKey(name)
  }

  /** Different requests never share a cache entry. */
  lemma KeysDistinct(kind: string, name: string, kind': string, name': string)
    requires kind == "component" || kind == "doc"
    requires kind' == "component" || kind' == "doc"
    requires KeyFor(kind, name) == KeyFor(kind', name')
    ensures kind == kind' && name == name'
  {
    var key := KeyFor(kind, name);
    assert key[0] == (if kind == "component" then 'c' else 'd');
    assert key[0] == (if kind' == "component" then 'c' else 'd');
    if kind == "component" {
      assert name == key[|"component:"|..] == name';
    } else {
      assert name == key[|"doc:"|..] == name';
    }
  }

  /** The candidate paths for a documentation section, in the order they are tried. */
  function DocPaths(name: string): seq<string> {
    ["/docs/" + name, "/docs/installation/" + name, "/docs/dark-mode/" + name, "/docs/migration/" + name]
  }

  /** The URLs `fetchGeneralDocs` builds for the candidate paths. */
  function DocUrls(name: string): (urls: seq<string>)
    ensures |urls| == 4
    ensures forall i :: 0 <= i < 4 ==> urls[i] == GeneralUrl(DocPaths(name)[i]) == ShadcnBaseUrl + DocPaths(name)[i]
  {
    seq(4, i requires 0 <= i < 4 => GeneralUrl(DocPaths(name)[i]))
  }

  /**
   * A cached value used as a scrape result.  A `{ markdown }` object has no
   * `success` field, so it reads as unsuccessful with no error.
   */
  function AsResult(v: CacheValue): (r: ScrapeResult)
    ensures v.Scraped? ==> r == v.result
    ensures v.Saved? ==> !r.success && r.error.None?
  {
    match v
    case Scraped(result) => result
    case Saved(markdown) => ScrapeResult("", Some(markdown), None, None, false, None)
  }

  /** What one lookup does: the result it renders, the URLs it fetches and whether it stores the result. */
  datatype Retrieval = Retrieval(result: Option<ScrapeResult>, fetched: seq<string>, saved: bool)

  /** One lookup of `name` as `kind`, given the cache entry for its key and the service. */
  function Retrieve(kind: string, name: string, cached: Option<CacheValue>, scraper: Scraper): (r: Retrieval)
    ensures kind == "component" ==> r.result.Some?
    ensures r.saved ==> r.result.Some? && Usable(r.result.value)
    ensures cached.Some? ==> r.fetched == [] && !r.saved
    ensures kind != "component" && kind != "doc" ==> r == Retrieval(None, [], false)
    ensures kind == "component" && cached.None? ==> r.fetched == [ComponentUrl(name)]
    ensures kind == "doc" && cached.None? ==> 1 <= |r.fetched| <= 4 && r.fetched == DocUrls(name)[..|r.fetched|]
    ensures (kind == "component" || kind == "doc") && cached.Some? ==> r.result == Some(AsResult(cached.value))
    ensures kind == "component" && cached.None? ==>
              r.result == Some(Fetch(scraper, ComponentUrl(name), ComponentOptions)) && (r.saved <==> Usable(r.result.value))
    ensures kind == "doc" && cached.None? ==>
              r.result == Some(Fetch(scraper, r.fetched[|r.fetched| - 1], PageOptions))
              && (r.saved <==> Usable(r.result.value))
              && (|r.fetched| < 4 ==> r.saved)
              && forall j :: 0 <= j < |r.fetched| - 1 ==> !Usable(Fetch(scraper, r.fetched[j], PageOptions))
  {
    if kind == "component" then
      if cached.Some? then Retrieval(Some(AsResult(cached.value)), [], false)
      else
        var result := Fetch(scraper, ComponentUrl(name), ComponentOptions);
        Retrieval(Some(result), [ComponentUrl(name)], Usable(result))
    else if kind == "doc" then
      if cached.Some? then Retrieval(Some(AsResult(cached.value)), [], false)
      else
        var w := Resolve(scraper, DocUrls(name), PageOptions);
        Retrieval(w.last, DocUrls(name)[..w.tried], w.last.Some? && Usable(w.last.value))
    else Retrieval(None, [], false)
  }

  /** The cache after a lookup: the result is stored under the request's key when the lookup saved it. */
  function CacheAfter(entries: map<string, CacheValue>, kind: string, name: string, r: Retrieval): map<string, CacheValue>
    requires r.saved ==> r.result.Some?
  {
    if r.saved then entries[KeyFor(kind, name) := Scraped(r.result.value)] else entries
  }

  function ComponentReply(name: string, r: ScrapeResult): string {
    if !r.success then
      "Component \"" + name + "\" not found or error occurred: " + Shown(r.error) + "\n\nUse the list tool to see available components."
    else if !Given(r.markdown) then
      "Component \"" + name + "\" not found. Use the list tool to see available components."
    else
      "# " + name + " Component\n\n" + r.markdown.value
  }

  function DocReply(name: string, r: Option<ScrapeResult>): string {
    if r.None? || !Usable(r.value) then
      "Documentation \"" + name + "\" not found. Use the list tool to see available documentation sections."
    else
      "# " + name + "\n\n" + r.value.markdown.value
  }

  /** The text the tool returns for a lookup's result. */
  function Reply(kind: string, name: string, result: Option<ScrapeResult>): string
    requires kind == "component" ==> result.Some?
  {
    if kind == "component" then ComponentReply(name, result.value)
    else if kind == "doc" then DocReply(name, result)
    else "Invalid type \"" + kind + "\". Use \"component\" or \"doc\"."
  }

  /** A reply opens with a markdown heading exactly when the result is usable, and then ends with its markdown. */
  lemma HeadingIffUsable(kind: string, name: string, r: ScrapeResult)
    requires kind == "component" || kind == "doc"
    ensures IsPrefix("# ", Reply(kind, name, Some(r))) <==> Usable(r)
    ensures Usable(r) ==> var t := Reply(kind, name, Some(r));
                          |r.markdown.value| <= |t| && t[|t| - |r.markdown.value|..] == r.markdown.value
  {
    var t := Reply(kind, name, Some(r));
    if !Usable(r) {
      assert t[0] != '#';
    }
  }

  /** A cache hit fetches nothing and stores nothing. */
  lemma HitFetchesNothing(kind: string, name: string, v: CacheValue, scraper: Scraper, entries: map<string, CacheValue>)
    ensures var r := Retrieve(kind, name, Some(v), scraper);
            r.fetched == [] && CacheAfter(entries, kind, name, r) == entries
  {
  }

  /** The earliest candidate path that yields markdown is rendered and stored, and no later path is fetched. */
  lemma EarliestCandidateWins(name: string, scraper: Scraper, k: nat)
    requires k < 4
    requires Usable(Fetch(scraper, DocUrls(name)[k], PageOptions))
    requires forall j :: 0 <= j < k ==> !Usable(Fetch(scraper, DocUrls(name)[j], PageOptions))
    ensures var r := Fetch(scraper, DocUrls(name)[k], PageOptions);
            Retrieve("doc", name, None, scraper) == Retrieval(Some(r), DocUrls(name)[..k + 1], true)
            && Reply("doc", name, Some(r)) == "# " + name + "\n\n" + r.markdown.value
  {
    EarliestUsableWins(scraper, DocUrls(name), PageOptions, k);
  }

  /** When no candidate path yields markdown, all four are fetched, nothing is stored and the section is reported missing. */
  lemma AllCandidatesFail(name: string, scraper: Scraper)
    requires forall j :: 0 <= j < 4 ==> !Usable(Fetch(scraper, DocUrls(name)[j], PageOptions))
    ensures var r := Retrieve("doc", name, None, scraper);
            r.fetched == DocUrls(name) && !r.saved
            && Reply("doc", name, r.result)
               == "Documentation \"" + name + "\" not found. Use the list tool to see available documentation sections."
  {
    NoneUsable(scraper, DocUrls(name), PageOptions);
  }

  /** Whatever the service answers, a lookup leaves a healthy cache healthy. */
  lemma CacheStaysHealthy(entries: map<string, CacheValue>, kind: string, name: string, scraper: Scraper)
    requires Healthy(entries)
    ensures var r := Retrieve(kind, name, Find(entries, KeyFor(kind, name)), scraper);
            Healthy(CacheAfter(entries, kind, name, r))
  {
    var r := Retrieve(kind, name, Find(entries, KeyFor(kind, name)), scraper);
    if r.saved {
      KeyKindsDisjoint(KeyFor(kind, name));
    }
  }

  /** In a healthy cache every hit renders a heading and the stored markdown. */
  lemma HealthyHitRenders(entries: map<string, CacheValue>, kind: string, name: string, scraper: Scraper)
    requires Healthy(entries)
    requires kind == "component" || kind == "doc"
    requires KeyFor(kind, name) in entries
    ensures var r := Retrieve(kind, name, Find(entries, KeyFor(kind, name)), scraper);
            r.fetched == [] && r.result == Some(entries[KeyFor(kind, name)].result)
            && IsPrefix("# ", Reply(kind, name, r.result))
  {
    var v := entries[KeyFor(kind, name)];
    HeadingIffUsable(kind, name, v.result);
  }

  /** Once a lookup has stored its result, repeating it fetches nothing, replies the same and changes nothing. */
  lemma SecondLookupHits(entries: map<string, CacheValue>, kind: string, name: string, first: Scraper, second: Scraper)
    ensures var r1 := Retrieve(kind, name, Find(entries, KeyFor(kind, name)), first);
            var after := CacheAfter(entries, kind, name, r1);
            var r2 := Retrieve(kind, name, Find(after, KeyFor(kind, name)), second);
            r1.saved ==> r2.fetched == [] && Reply(kind, name, r2.result) == Reply(kind, name, r1.result)
                         && CacheAfter(after, kind, name, r2) == after
  {
  }

  /** A failed lookup leaves the cache as it was, so the next lookup asks the site again. */
  lemma FailureNotCached(entries: map<string, CacheValue>, kind: string, name: string, scraper: Scraper)
    ensures var r := Retrieve(kind, name, Find(entries, KeyFor(kind, name)), scraper);
            (r.result.None? || !Usable(r.result.value)) ==> CacheAfter(entries, kind, name, r) == entries
  {
  }

  /** The component branch of `execute`. */
  method GetComponent(cache: Cache, site: Firecrawl, name: string) returns (text: string)
    modifies cache, site
    ensures var r := Retrieve("component", name, Find(old(cache.entries), ComponentKey(name)), site.scraper);
            text == Reply("component", name, r.result)
            && site.requested == old(site.requested) + r.fetched
            && cache.entries == CacheAfter(old(cache.entries), "component", name, r)
  {
    var key := ComponentKey(name);
    var cached := cache.Get(key);
    var result: ScrapeResult;
    if cached.Some? {
      result := AsResult(cached.value);
    } else {
      result := site.FetchComponentDocs(name);
      if Usable(result) {
        cache.Save(key, Scraped(result));
      }
    }
    text := ComponentReply(name, result);
  }

  /** `fetchGeneralDocs` over the candidate paths in order, stopping at the first that yields markdown, which is stored under `key`. */
  method TryCandidates(cache: Cache, site: Firecrawl, name: string, key: string) returns (result: Option<ScrapeResult>)
    modifies cache, site
    ensures var w := Resolve(site.scraper, DocUrls(name), PageOptions);
            result == w.last
            && site.requested == old(site.requested) + DocUrls(name)[..w.tried]
            && cache.entries == if w.last.Some? && Usable(w.last.value) then old(cache.entries)[key := Scraped(w.last.value)] else old(cache.entries)
  {
    var paths := DocPaths(name);
    var urls := DocUrls(name);
    result := None;
    var i := 0;
    while i < |paths|
      invariant 0 <= i <= |paths|
      invariant site.requested == old(site.requested) + urls[..i]
      invariant i == 0 ==> result.None?
      invariant i > 0 ==> result == Some(Fetch(site.scraper, urls[i - 1], PageOptions))
      invariant forall j :: 0 <= j < i ==> !Usable(Fetch(site.scraper, urls[j], PageOptions))
      invariant cache.entries == old(cache.entries)
    {
      var r := site.FetchGeneralDocs(paths[i]);
      RecordNext(old(site.requested), urls, i);
      result := Some(r);
      if Usable(r) {
        cache.Save(key, Scraped(r));
        EarliestUsableWins(site.scraper, urls, PageOptions, i);
        return;
      }
      i := i + 1;
    }
    NoneUsable(site.scraper, urls, PageOptions);
  }

  /** The documentation branch of `execute`: the candidate paths are tried until one yields markdown. */
  method GetDoc(cache: Cache, site: Firecrawl, name: string) returns (text: string)
    modifies cache, site
    ensures var r := Retrieve("doc", name, Find(old(cache.entries), DocKey(name)), site.scraper);
            text == Reply("doc", name, r.result)
            && site.requested == old(site.requested) + r.fetched
            && cache.entries == CacheAfter(old(cache.entries), "doc", name, r)
  {
    var key := DocKey(name);
    var cached := cache.Get(key);
    var result: Option<ScrapeResult>;
    if cached.Some? {
      result := Some(AsResult(cached.value));
    } else {
      result := TryCandidates(cache, site, name, key);
    }
    text := DocReply(name, result);
  }

  /** The tool's `execute`. */
  method Execute(cache: Cache, site: Firecrawl, name: string, kind: string) returns (text: string)
    modifies cache, site
    ensures var r := Retrieve(kind, name, Find(old(cache.entries), KeyFor(kind, name)), site.scraper);
            text == Reply(kind, name, r.result)
            && site.requested == old(site.requested) + r.fetched
            && cache.entries == CacheAfter(old(cache.entries), kind, name, r)
  {
    if kind == "component" {
      text := GetComponent(cache, site, name);
    } else if kind == "doc" {
      text := GetDoc(cache, site, name);
    } else {
      text := "Invalid type \"" + kind + "\". Use \"component\" or \"doc\".";
    }
  }
}
