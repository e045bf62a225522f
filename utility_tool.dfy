/**
 * The `shadcn-svelte-utility` tool (src/mastra/tools/shadcn-svelte-utility.ts):
 * the installation guide for a framework, the migration guide (with one
 * alternate page), the theming guide, the CLI page and a fixed help text.
 * The four documentation actions read the shared cache first; on a miss they
 * fetch the page and store its markdown when the fetch is usable, otherwise
 * they report the first fetch's error.
 *
 * `Gather` specifies what one documentation action obtains; `Execute` is the
 * tool, proved to follow it.
 */
module UtilityTool {
  import opened Wrappers
  import opened Strings
  import opened DocFetcher
  import opened Candidates
  import opened DocCache

  /** `install:${framework || "general"}`. */
  function InstallKey(framework: Option<string>): (key: string)
    ensures IsContentKey(key)
  {
    "install:" + (if Given(framework) then framework.value else "general")
  }

  /** Different named frameworks are cached apart; no framework shares the `general` entry. */
  lemma InstallKeysDistinct(framework: Option<string>, other: Option<string>)
    ensures Given(framework) && Given(other) && InstallKey(framework) == InstallKey(other) ==> framework == other
    ensures !Given(framework) ==> InstallKey(framework) == "install:general"
  {
    if Given(framework) && Given(other) && InstallKey(framework) == InstallKey(other) {
      assert framework.value == InstallKey(framework)[|"install:"|..] == other.value;
    }
  }

  /** Where a documentation action looks: its cache key and its page paths, in order. */
  datatype Section = Section(key: string, paths: seq<string>)

  /** The section of each documentation action; `help` and unknown actions have none. */
  function SectionOf(action: string, framework: Option<string>): (s: Option<Section>)
    ensures s.Some? <==> action == "install" || action == "migrate" || action == "theme" || action == "cli"
    ensures s.Some? ==> IsContentKey(s.value.key) && 1 <= |s.value.paths| <= 2
  {
    if action == "install" then Some(Section(InstallKey(framework), [InstallationPath(framework)]))
    else if action == "migrate" then Some(Section("migration:general", ["/docs/migration", "/docs/migration/svelte-5"]))
    else if action == "theme" then Some(Section("theming:general", ["/docs/theming"]))
    else if action == "cli" then Some(Section("cli:general", ["/docs/cli"]))
    else None
  }

  /** `cached.markdown`: a whole scrape result read this way yields its markdown or `undefined`. */
  function CachedMarkdown(v: CacheValue): (m: string)
    ensures v.Saved? ==> m == v.markdown
  {
    match v
    case Saved(markdown) => markdown
    case Scraped(result) => Shown(result.markdown)
  }

  /** The URLs `fetchGeneralDocs` builds for the paths. */
  function Urls(paths: seq<string>): (urls: seq<string>)
    ensures |urls| == |paths|
    ensures forall i :: 0 <= i < |paths| ==> urls[i] == GeneralUrl(paths[i])
  {
    seq(|paths|, i requires 0 <= i < |paths| => GeneralUrl(paths[i]))
  }

  /** What a documentation action obtains: the content, or the error to report, and the URLs it fetched. */
  datatype Gathered = Gathered(content: Option<string>, failure: string, fetched: seq<string>)

  /** The content of a section given its cache entry: the cached markdown, else the first usable page. */
  function Gather(scraper: Scraper, paths: seq<string>, cached: Option<CacheValue>): (g: Gathered)
    requires |paths| > 0
    ensures cached.Some? ==> g == Gathered(Some(CachedMarkdown(cached.value)), "", [])
    ensures cached.None? ==>
      (g.content.Some? <==> exists i :: 0 <= i < |paths| && Usable(Fetch(scraper, Urls(paths)[i], PageOptions)))
    ensures cached.None? && g.content.Some? ==> g.content.value != ""
    ensures cached.None? && g.content.None? ==>
      g.failure == Shown(Fetch(scraper, GeneralUrl(paths[0]), PageOptions).error) && g.fetched == Urls(paths)
    ensures cached.None? ==> 1 <= |g.fetched| <= |paths| && g.fetched == Urls(paths)[..|g.fetched|]
    ensures cached.None? && g.content.Some? ==>
      var page := Fetch(scraper, Urls(paths)[|g.fetched| - 1], PageOptions);
      Usable(page) && g.content == page.markdown
      && forall j :: 0 <= j < |g.fetched| - 1 ==> !Usable(Fetch(scraper, Urls(paths)[j], PageOptions))
  {
    if cached.Some? then Gathered(Some(CachedMarkdown(cached.value)), "", [])
    else
      var urls := Urls(paths);
      var w := Resolve(scraper, urls, PageOptions);
      UsableIffSomeCandidate(scraper, urls, PageOptions);
      if Usable(w.last.value) then Gathered(Some(w.last.value.markdown.value), "", urls[..w.tried])
      else Gathered(None, Shown(Fetch(scraper, urls[0], PageOptions).error), urls[..w.tried])
  }

  /** The cache after a documentation action: fetched content is stored under the section's key. */
  function Stored(entries: map<string, CacheValue>, key: string, cached: Option<CacheValue>, g: Gathered): map<string, CacheValue> {
    if cached.None? && g.content.Some? then entries[key := Saved(g.content.value)] else entries
  }

  const InstallHeading := "# Installation Guide\n\n"

  /** The package-manager note that closes an installation guide. */
  function InstallNote(packageManager: string): string {
    "\n\n---\n\n**Note:** The examples above can be adapted for " + packageManager + ". Replace the package manager commands as needed."
  }

  /** The reply of `install`: heading, the framework line when one is named, the content, and the package-manager note. */
  function InstallGuide(framework: Option<string>, packageManager: string, content: string): string {
    InstallHeading
    + (if Given(framework) then "**Framework:** " + framework.value + "\n\n" else "")
    + content
    + InstallNote(packageManager)
  }

  /** An installation guide opens with its heading and the framework when one is named, and closes with the note. */
  lemma InstallGuideShape(framework: Option<string>, packageManager: string, content: string)
    ensures var t := InstallGuide(framework, packageManager, content);
            && (Given(framework) ==> IsPrefix(InstallHeading + "**Framework:** " + framework.value + "\n\n" + content, t))
            && (!Given(framework) ==> IsPrefix(InstallHeading + content, t))
            && |InstallNote(packageManager)| <= |t|
            && t[|t| - |InstallNote(packageManager)|..] == InstallNote(packageManager)
  {
  }

  /** The prefix of the message reported when an action's page cannot be fetched. */
  function ErrorLabel(action: string): string {
    if action == "install" then "Error fetching installation docs: "
    else if action == "migrate" then "Error fetching migration docs: "
    else if action == "theme" then "Error fetching theming docs: "
    else "Error fetching CLI docs: "
  }

  /** The reply of a documentation action. */
  function Respond(action: string, framework: Option<string>, packageManager: string, g: Gathered): string {
    if g.content.None? then ErrorLabel(action) + g.failure
    else if action == "install" then InstallGuide(framework, packageManager, g.content.value)
    else if action == "migrate" then "# Migration Guide\n\n" + g.content.value
    else if action == "theme" then "# Theming Guide\n\n" + g.content.value
    else "# CLI Documentation\n\n" + g.content.value
  }

  /** The reply for an action the tool does not know. */
  function UnknownAction(action: string): string {
    "Unknown action \"" + action + "\". Use \"install\", \"migrate\", \"theme\", \"cli\", or \"help\"."
  }

  /** The fixed text of the `help` action. */
  const HelpText := @"# shadcn-svelte Help

## Available Actions

### Installation (`install`)
Get installation guides for different frameworks.

**Parameters:**
- `framework`: sveltekit, vite, astro, sapper, plain-svelte (optional)
- `packageManager`: npm, yarn, pnpm, bun (optional, for preference note)

**Example:**
```json
{
  ""action"": ""install"",
  ""framework"": ""sveltekit"",
  ""packageManager"": ""pnpm""
}
```

### Migration (`migrate`)
Get migration guides for upgrading shadcn-svelte or Svelte versions.

**Example:**
```json
{
  ""action"": ""migrate""
}
```

### Theming (`theme`)
Get theming and customization documentation.

**Example:**
```json
{
  ""action"": ""theme""
}
```

### CLI (`cli`)
Get CLI tool documentation.

**Example:**
```json
{
  ""action"": ""cli""
}
```

## Other Tools

- **List Tool** (`shadcn-svelte-list`): See all available components and documentation
- **Get Tool** (`shadcn-svelte-get`): Get detailed information about specific components or docs

## Quick Start

1. Use `list` to see what's available
2. Use `get` to retrieve specific component or documentation details
3. Use this `utility` tool for installation, migration, theming, and CLI help

## Tips

- All content is fetched from the live shadcn-svelte.com website
- Results are cached for 24 hours for better performance
- Always use Svelte 5 with runes (`$state`, `$props`, `$derived`, `$effect`)"

  /** The migration guide falls back to the Svelte 5 page only when the main page is unusable. */
  lemma MigrationFallsBack(scraper: Scraper)
    ensures var sec := SectionOf("migrate", None).value;
            var main := Fetch(scraper, GeneralUrl("/docs/migration"), PageOptions);
            var alt := Fetch(scraper, GeneralUrl("/docs/migration/svelte-5"), PageOptions);
            var g := Gather(scraper, sec.paths, None);
            && (Usable(main) ==> g == Gathered(main.markdown, "", [GeneralUrl("/docs/migration")]))
            && (!Usable(main) && Usable(alt) ==> g == Gathered(alt.markdown, "", Urls(sec.paths)))
  {
    var sec := SectionOf("migrate", None).value;
    var urls := Urls(sec.paths);
    if Usable(Fetch(scraper, urls[0], PageOptions)) {
      EarliestUsableWins(scraper, urls, PageOptions, 0);
    } else if Usable(Fetch(scraper, urls[1], PageOptions)) {
      EarliestUsableWins(scraper, urls, PageOptions, 1);
    }
  }

  /** When both migration pages fail, the main page's error is reported and the alternate's is dropped. */
  lemma MigrationReportsMainError(scraper: Scraper, framework: Option<string>, packageManager: string)
    requires !Usable(Fetch(scraper, GeneralUrl("/docs/migration"), PageOptions))
    requires !Usable(Fetch(scraper, GeneralUrl("/docs/migration/svelte-5"), PageOptions))
    ensures var g := Gather(scraper, SectionOf("migrate", framework).value.paths, None);
            Respond("migrate", framework, packageManager, g)
            == "Error fetching migration docs: " + Shown(Fetch(scraper, GeneralUrl("/docs/migration"), PageOptions).error)
  {
    var urls := Urls(SectionOf("migrate", framework).value.paths);
    NoneUsable(scraper, urls, PageOptions);
  }

  /** Whatever the service answers, a documentation action leaves a healthy cache healthy. */
  lemma UtilityKeepsCacheHealthy(entries: map<string, CacheValue>, action: string, framework: Option<string>, scraper: Scraper)
    requires Healthy(entries)
    requires SectionOf(action, framework).Some?
    ensures var sec := SectionOf(action, framework).value;
            var cached := Find(entries, sec.key);
            Healthy(Stored(entries, sec.key, cached, Gather(scraper, sec.paths, cached)))
  {
    KeyKindsDisjoint(SectionOf(action, framework).value.key);
  }

  /** Once an action has stored its content, repeating it fetches nothing, replies the same and changes nothing. */
  lemma RepeatServedFromCache(entries: map<string, CacheValue>, action: string, framework: Option<string>, packageManager: string, first: Scraper, second: Scraper)
    requires SectionOf(action, framework).Some?
    ensures var sec := SectionOf(action, framework).value;
            var g1 := Gather(first, sec.paths, Find(entries, sec.key));
            var after := Stored(entries, sec.key, Find(entries, sec.key), g1);
            var g2 := Gather(second, sec.paths, Find(after, sec.key));
            after != entries ==>
              g2.fetched == [] && Respond(action, framework, packageManager, g2) == Respond(action, framework, packageManager, g1)
              && Stored(after, sec.key, Find(after, sec.key), g2) == after
  {
    var sec := SectionOf(action, framework).value;
    var cached := Find(entries, sec.key);
    var g1 := Gather(first, sec.paths, cached);
    var after := Stored(entries, sec.key, cached, g1);
    if after != entries {
      assert Find(after, sec.key) == Some(Saved(g1.content.value));
      var g2 := Gather(second, sec.paths, Find(after, sec.key));
      assert g2 == Gathered(g1.content, "", []);
    }
  }

  /** A documentation action's fetches on a cache miss: the first page, and the second only when the first is unusable. */
  method FetchPages(cache: Cache, site: Firecrawl, key: string, paths: seq<string>) returns (g: Gathered)
    requires 1 <= |paths| <= 2
    modifies cache, site
    ensures g == Gather(site.scraper, paths, None)
            && site.requested == old(site.requested) + g.fetched
            && cache.entries == Stored(old(cache.entries), key, None, g)
  {
    var urls := Urls(paths);
    var result := site.FetchGeneralDocs(paths[0]);
    if Usable(result) {
      cache.Save(key, Saved(result.markdown.value));
      FirstPageGathered(site.scraper, paths);
      return Gathered(result.markdown, "", urls[..1]);
    }
    if |paths| == 2 {
      var alt := site.FetchGeneralDocs(paths[1]);
      if Usable(alt) {
        cache.Save(key, Saved(alt.markdown.value));
        SecondPageGathered(site.scraper, paths);
        return Gathered(alt.markdown, "", urls);
      }
    }
    NoPageGathered(site.scraper, paths);
    g := Gathered(None, Shown(result.error), urls);
  }

  /** A usable first page is the content, and only it is fetched. */
  lemma FirstPageGathered(scraper: Scraper, paths: seq<string>)
    requires |paths| > 0 && Usable(Fetch(scraper, GeneralUrl(paths[0]), PageOptions))
    ensures Gather(scraper, paths, None) == Gathered(Fetch(scraper, GeneralUrl(paths[0]), PageOptions).markdown, "", Urls(paths)[..1])
  {
    EarliestUsableWins(scraper, Urls(paths), PageOptions, 0);
  }

  /** After an unusable first page, a usable second page is the content, and both are fetched. */
  lemma SecondPageGathered(scraper: Scraper, paths: seq<string>)
    requires |paths| == 2
    requires !Usable(Fetch(scraper, GeneralUrl(paths[0]), PageOptions)) && Usable(Fetch(scraper, GeneralUrl(paths[1]), PageOptions))
    ensures Gather(scraper, paths, None) == Gathered(Fetch(scraper, GeneralUrl(paths[1]), PageOptions).markdown, "", Urls(paths))
  {
    EarliestUsableWins(scraper, Urls(paths), PageOptions, 1);
    assert Urls(paths)[..2] == Urls(paths);
  }

  /** When no page is usable, every page is fetched and the first page's error is reported. */
  lemma NoPageGathered(scraper: Scraper, paths: seq<string>)
    requires 1 <= |paths| <= 2
    requires forall j :: 0 <= j < |paths| ==> !Usable(Fetch(scraper, GeneralUrl(paths[j]), PageOptions))
    ensures Gather(scraper, paths, None) == Gathered(None, Shown(Fetch(scraper, GeneralUrl(paths[0]), PageOptions).error), Urls(paths))
  {
    NoneUsable(scraper, Urls(paths), PageOptions);
    assert Urls(paths)[..|paths|] == Urls(paths);
  }


  /** A documentation action's cache lookup and fetches, for pages `fetchGeneralDocs` builds. */
  method CollectGeneral(cache: Cache, site: Firecrawl, key: string, paths: seq<string>) returns (g: Gathered)
    requires 1 <= |paths| <= 2
    modifies cache, site
    ensures var cached := Find(old(cache.entries), key);
            g == Gather(site.scraper, paths, cached)
            && site.requested == old(site.requested) + g.fetched
            && cache.entries == Stored(old(cache.entries), key, cached, g)
  {
    var cached := cache.Get(key);
    if cached.Some? {
      return Gathered(Some(CachedMarkdown(cached.value)), "", []);
    }
    g := FetchPages(cache, site, key, paths);
  }

  /** The installation action's cache lookup and fetch. */
  method CollectInstallation(cache: Cache, site: Firecrawl, framework: Option<string>) returns (g: Gathered)
    modifies cache, site
    ensures var sec := SectionOf("install", framework).value;
            var cached := Find(old(cache.entries), sec.key);
            g == Gather(site.scraper, sec.paths, cached)
            && site.requested == old(site.requested) + g.fetched
            && cache.entries == Stored(old(cache.entries), sec.key, cached, g)
  {
    var key := InstallKey(framework);
    var cached := cache.Get(key);
    if cached.Some? {
      return Gathered(Some(CachedMarkdown(cached.value)), "", []);
    }
    var urls := Urls([InstallationPath(framework)]);
    var result := site.FetchInstallationDocs(framework);
    if Usable(result) {
      cache.Save(key, Saved(result.markdown.value));
      EarliestUsableWins(site.scraper, urls, PageOptions, 0);
      g := Gathered(result.markdown, "", urls);
    } else {
      NoneUsable(site.scraper, urls, PageOptions);
      g := Gathered(None, Shown(result.error), urls);
    }
  }

  /** The tool's `execute`; `packageManager` defaults to `npm`. */
  method Execute(cache: Cache, site: Firecrawl, action: string, framework: Option<string>, packageManager: Option<string>)
    returns (text: string)
    modifies cache, site
    ensures SectionOf(action, framework).None? ==>
              text == (if action == "help" then HelpText else UnknownAction(action))
              && site.requested == old(site.requested) && cache.entries == old(cache.entries)
    ensures SectionOf(action, framework).Some? ==>
              var sec := SectionOf(action, framework).value;
              var cached := Find(old(cache.entries), sec.key);
              var g := Gather(site.scraper, sec.paths, cached);
              text == Respond(action, framework, packageManager.GetOr("npm"), g)
              && site.requested == old(site.requested) + g.fetched
              && cache.entries == Stored(old(cache.entries), sec.key, cached, g)
  {
    var pm := packageManager.GetOr("npm");
    var g: Gathered;
    if action == "install" {
      g := CollectInstallation(cache, site, framework);
    } else if action == "migrate" {
      g := CollectGeneral(cache, site, "migration:general", ["/docs/migration", "/docs/migration/svelte-5"]);
    } else if action == "theme" {
      g := CollectGeneral(cache, site, "theming:general", ["/docs/theming"]);
    } else if action == "cli" {
      g := CollectGeneral(cache, site, "cli:general", ["/docs/cli"]);
    } else if action == "help" {
      return HelpText;
    } else {
      return UnknownAction(action);
    }
    text := Respond(action, framework, pm, g);
  }
}
