# shadcn-svelte documentation server, modelled in Dafny

A Dafny model of the core of the shadcn-svelte MCP server. The server's tools answer questions about shadcn-svelte components and documentation. The model covers:

- **The live retrieval path** (`shadcn-svelte-get` and `shadcn-svelte-utility`). Each request is served from a shared cache under a key built from the request. On a miss, one or more pages are fetched from shadcn-svelte.com through the Firecrawl scrape service. Candidate paths are tried in a fixed order, and a result is stored only when it is successful and carries markdown.
- **The documentation fetcher** (`src/services/doc-fetcher.ts`): the URLs it builds, the request defaults it fills in, how it reads the service's reply envelope, and its rule that every failure is returned as a `success: false` value.
- **The local tools** that read the bundled `content` folder:
  - the migration and installation guides, each a chain of preferred files followed by a keyword scan;
  - the recursive documentation search and its retry without a category;
  - the component search and the component details over `registry.json`;
  - the component and documentation listing.
- **The release scripts:**
  - the Conventional Commits header parser and release-type suggestion of `scripts/analyze-commits.js`;
  - the three scripts that write, check and synchronise the `version:` line of `src/mastra/mcp-server.ts` against `package.json`.

Where the source changes state, the model does too:

- The cache is a class whose `entries` map the tools overwrite.
- The Firecrawl client is a class that keeps a ghost log of every URL it was asked to fetch.
- The two files the version scripts touch are fields of a `Workspace` class.
- Loops that push into arrays or append to strings are `while` and `for` loops. Each is proved against a function that specifies its result.

Everything the server reaches outside itself is given as a value:

- the HTTP exchange;
- the folders and the files read from them;
- the registry;
- the discovery service;
- `git`'s output.

One module per source file, plus shared helpers:

- `wrappers` (Option and Result);
- `strings` (the JavaScript string operations used);
- `filtering` (`filter`/`map` and push loops);
- `local_files` (reading the local folders);
- `candidates` (the ordered candidate walk);
- `version_pattern` (the two `version:` regular expressions, matched by hand).

## Model

| member | source | states |
|---|---|---|
| DocFetcher.ScrapeRequestFor | src/services/doc-fetcher.ts:46-54 | the scrape body keeps the URL, tags and wait; formats default to markdown; `onlyMainContent` is on unless explicitly false; a missing or zero timeout becomes 30000 |
| DocFetcher.Normalize | src/services/doc-fetcher.ts:66-68 | a non-empty markdown or html nested under `data` wins, otherwise the top-level field is taken |
| DocFetcher.NestedAndFlatAgree | src/services/doc-fetcher.ts:66 | the same markdown is found whether the service nests it under `data` or sends it flat |
| DocFetcher.ScrapeUrl | src/services/doc-fetcher.ts:35-79 | success exactly when the reply is reachable, ok and parses; every failure is a value carrying an error (the thrown message, or `Firecrawl API error (status): text`) and no content; a success carries the normalised markdown and no error |
| DocFetcher.SuccessWithoutMarkdown | src/services/doc-fetcher.ts:62-70 | an ok reply without markdown is still `success: true` but not usable |
| DocFetcher.InstallationPath | src/services/doc-fetcher.ts:101-103 | `/docs/installation/<framework>` for a non-empty framework, `/docs/installation` otherwise |
| DocFetcher.GeneralUrl | src/services/doc-fetcher.ts:115 | the URL always starts with the site root and a slash |
| DocFetcher.GeneralUrlSlash | src/services/doc-fetcher.ts:115 | adding a leading slash does not change the URL; slashed paths map injectively to URLs |
| DocFetcher.InstallationUrlIsGeneral | src/services/doc-fetcher.ts:101-104 | the installation URL is the general-page URL of the installation path |
| DocFetcher.MapRequestFor | src/services/doc-fetcher.ts:140-145 | the map body keeps URL and search; a missing or zero limit becomes 100; subdomains only when explicitly true |
| DocFetcher.MapLink | src/services/doc-fetcher.ts:154 | `link.url || link`: a link with a non-empty `url` becomes that text, any other link is kept as is |
| DocFetcher.MapWebsite | src/services/doc-fetcher.ts:125-168 | success exactly when the reply is reachable, ok and parses; a failure has no URLs and an error; a success maps every link, in order, or gives none when `links` is absent |
| DocFetcher.ConnectionVerdict | src/services/doc-fetcher.ts:185-195 | the probe passes exactly when the scrape is usable; otherwise the message is the scrape's error or `Failed to scrape test URL` |
| DocFetcher.FailedProbeQuotesError | src/services/doc-fetcher.ts:71-194 | an unreachable service fails the probe with the transport error's message |
| DocFetcher.Firecrawl.constructor | src/services/doc-fetcher.ts:9-11 | a service with the given API URL and exchanges, nothing requested yet |
| DocFetcher.Firecrawl.Scrape | src/services/doc-fetcher.ts:35-79 | the result is the normalised reply to the defaulted request; the URL is appended to the request log |
| DocFetcher.Firecrawl.FetchComponentDocs | src/services/doc-fetcher.ts:84-93 | scrapes `/docs/components/<name>` with nav, footer and aside excluded, logging that URL |
| DocFetcher.Firecrawl.FetchInstallationDocs | src/services/doc-fetcher.ts:98-109 | scrapes the installation path for the framework, logging that URL |
| DocFetcher.Firecrawl.FetchGeneralDocs | src/services/doc-fetcher.ts:114-120 | scrapes the general URL of the path, logging it |
| DocFetcher.Firecrawl.MapSite | src/services/doc-fetcher.ts:125-168 | the map result of the defaulted request; the URL is logged |
| DocFetcher.Firecrawl.TestConnection | src/services/doc-fetcher.ts:173-203 | one probe of `/docs` with a 10000 ms timeout, judged by `ConnectionVerdict` |
| DocFetcher.Fetch | src/services/doc-fetcher.ts:35-79 | what `scrapeUrl` returns for one URL: the reply to the defaulted request, judged by `ScrapeUrl`; the fetch methods are proved to return it |
| DocFetcher.ComponentUrl | src/services/doc-fetcher.ts:87 | `${SHADCN_BASE_URL}/docs/components/${name}`; `Firecrawl.FetchComponentDocs` is proved to scrape and log exactly this URL |
| DocFetcher.IsOk | src/services/doc-fetcher.ts:57 | `response.ok`: a status from 200 to 299; `ScrapeUrl` fails on every other status |
| DocFetcher.Usable | src/mastra/tools/shadcn-svelte-get.ts:37 | `result.success && result.markdown`: a successful result with non-empty markdown; `SuccessWithoutMarkdown` shows success alone is not enough |
| DocFetcher.PickText | src/services/doc-fetcher.ts:66 | `nested || top` for a text field: a non-empty nested value wins, otherwise the top-level one; `NestedAndFlatAgree` states its use |
| DocFetcher.PickObject | src/services/doc-fetcher.ts:68 | `nested || top` for the metadata object: any nested object wins, since an object is truthy |
| DocFetcher.StatusError | src/services/doc-fetcher.ts:59 | the thrown message `Firecrawl API error (<status>): <text>` that `ScrapeUrl` returns as the error of a non-ok reply |
| Candidates.Resolve | src/mastra/tools/shadcn-svelte-get.ts:72-78 | the walk fetches candidates in order, stops after the first usable one (every earlier one was unusable), and otherwise ends on the last candidate's result |
| Candidates.EarliestUsableWins | src/mastra/tools/shadcn-svelte-get.ts:72-78 | the first usable candidate is returned and nothing after it is fetched |
| Candidates.NoneUsable | src/mastra/tools/shadcn-svelte-get.ts:72-78 | with no usable candidate every URL is fetched and the last result is kept |
| Candidates.UsableIffSomeCandidate | src/mastra/tools/shadcn-svelte-get.ts:72-81 | the walk ends on a usable result exactly when some candidate is usable |
| DocCache.Find | src/mastra/tools/shadcn-svelte-get.ts:28 | a lookup yields the stored value exactly when the key is present |
| DocCache.KeyKindsDisjoint | src/mastra/tools/shadcn-svelte-get.ts:27 | no key of the get tool (`component:`, `doc:`) is also a key of the utility tool (`install:`, `migration:general`, `theming:general`, `cli:general`) |
| DocCache.Cache.constructor | src/mastra/tools/shadcn-svelte-get.ts:8 | a cache starts empty |
| DocCache.Cache.Get | src/mastra/tools/shadcn-svelte-get.ts:28 | `getFromCache` returns the entry for the key and changes nothing |
| DocCache.Cache.Save | src/mastra/tools/shadcn-svelte-get.ts:40 | `saveToCache` replaces the key's entry and keeps every other one |
| DocCache.IsResultKey | src/mastra/tools/shadcn-svelte-get.ts:27 | the keys the get tool writes, `component:` and `doc:`; `KeyKindsDisjoint` separates them from the utility keys |
| DocCache.IsContentKey | src/mastra/tools/shadcn-svelte-utility.ts:32 | the keys the utility tool writes: `install:…`, `migration:general`, `theming:general` and `cli:general` |
| DocCache.Healthy | src/mastra/tools/shadcn-svelte-get.ts:37-40 | every stored value has the kind its key promises and carries markdown; `GetTool.CacheStaysHealthy` and `UtilityTool.UtilityKeepsCacheHealthy` prove both tools keep it |
| GetTool.KeyFor | src/mastra/tools/shadcn-svelte-get.ts:27-55 | every key the tool uses is a scrape-result key |
| GetTool.KeysDistinct | src/mastra/tools/shadcn-svelte-get.ts:27-55 | two different (type, name) requests never share a cache key |
| GetTool.DocUrls | src/mastra/tools/shadcn-svelte-get.ts:65-70 | four candidate URLs: the site root followed by `/docs/`, `/docs/installation/`, `/docs/dark-mode/`, `/docs/migration/` and the name |
| GetTool.AsResult | src/mastra/tools/shadcn-svelte-get.ts:28-33 | a cached scrape result is used as is; a `{ markdown }` object reads as unsuccessful with no error |
| GetTool.ComponentReply | src/mastra/tools/shadcn-svelte-get.ts:44-52 | the component reply: the error text for an unsuccessful result, the not-found text without markdown, else the heading and markdown; `HeadingIffUsable` proves a heading exactly for a usable result |
| GetTool.DocReply | src/mastra/tools/shadcn-svelte-get.ts:81-85 | the doc reply: the not-found text unless the result is usable, else the heading and markdown; `HeadingIffUsable` proves a heading exactly for a usable result |
| GetTool.Reply | src/mastra/tools/shadcn-svelte-get.ts:44-88 | the reply for each type, and `Invalid type` for any other; `HeadingIffUsable` and `HealthyHitRenders` state what it shows |
| GetTool.CacheAfter | src/mastra/tools/shadcn-svelte-get.ts:38-41 | the cache gains the fetched result under the request's key exactly when the lookup saved it; `CacheStaysHealthy` proves every entry stays a usable scrape result |
| GetTool.Retrieve | src/mastra/tools/shadcn-svelte-get.ts:24-86 | a hit fetches and stores nothing; a hit renders the cached value; a component miss fetches its one URL and renders that page; a doc miss fetches a prefix of the four candidates, stops at the first usable one and renders the last page fetched; a fetched result is stored exactly when it is usable; an unknown type does nothing |
| GetTool.HeadingIffUsable | src/mastra/tools/shadcn-svelte-get.ts:44-85 | the reply opens with a heading exactly when the result is usable, and then ends with its markdown |
| GetTool.HitFetchesNothing | src/mastra/tools/shadcn-svelte-get.ts:31-61 | a cache hit fetches nothing and leaves the cache unchanged |
| GetTool.EarliestCandidateWins | src/mastra/tools/shadcn-svelte-get.ts:72-85 | the earliest usable candidate path is fetched, stored and rendered, and no later one is fetched |
| GetTool.AllCandidatesFail | src/mastra/tools/shadcn-svelte-get.ts:72-82 | when no path yields markdown all four are fetched, nothing is stored and the section is reported missing |
| GetTool.CacheStaysHealthy | src/mastra/tools/shadcn-svelte-get.ts:38-76 | a lookup keeps every `component:`/`doc:` entry a usable scrape result |
| GetTool.HealthyHitRenders | src/mastra/tools/shadcn-svelte-get.ts:31-85 | in such a cache every hit renders the heading and the stored markdown without fetching |
| GetTool.SecondLookupHits | src/mastra/tools/shadcn-svelte-get.ts:28-42 | after a stored lookup, repeating it fetches nothing, replies the same and changes nothing |
| GetTool.FailureNotCached | src/mastra/tools/shadcn-svelte-get.ts:38-77 | a failed lookup leaves the cache as it was |
| GetTool.GetComponent | src/mastra/tools/shadcn-svelte-get.ts:25-52 | replies, fetches and updates the cache exactly as `Retrieve` says for a component |
| GetTool.TryCandidates | src/mastra/tools/shadcn-svelte-get.ts:65-78 | the loop fetches the candidates in order until one is usable, exactly as `Resolve` walks them; its result is the last fetched one, and the cache gains that result only when it is usable |
| GetTool.GetDoc | src/mastra/tools/shadcn-svelte-get.ts:53-85 | the candidate loop replies, fetches and updates the cache exactly as `Retrieve` says for a doc |
| GetTool.Execute | src/mastra/tools/shadcn-svelte-get.ts:21-88 | the tool follows `Retrieve` for every type, replying `Invalid type` for any other |
| GetTool.ComponentKey | src/mastra/tools/shadcn-svelte-get.ts:27 | `component:<name>`; `KeysDistinct` proves different requests never share a key |
| GetTool.DocKey | src/mastra/tools/shadcn-svelte-get.ts:55 | `doc:<name>`; `KeysDistinct` covers it too |
| GetTool.DocPaths | src/mastra/tools/shadcn-svelte-get.ts:65-70 | `/docs/<name>`, then the installation, dark-mode and migration sections, in the order they are tried; `DocUrls` turns them into URLs |
| UtilityTool.InstallKey | src/mastra/tools/shadcn-svelte-utility.ts:32 | the installation key is a content key; named frameworks get their own key, a missing one `install:general` |
| UtilityTool.InstallKeysDistinct | src/mastra/tools/shadcn-svelte-utility.ts:32 | different named frameworks never share an entry; no framework means `install:general` |
| UtilityTool.SectionOf | src/mastra/tools/shadcn-svelte-utility.ts:31-134 | exactly `install`, `migrate`, `theme` and `cli` read a page, each under a content key from one or two paths |
| UtilityTool.CachedMarkdown | src/mastra/tools/shadcn-svelte-utility.ts:38-121 | a stored `{ markdown }` gives back its markdown |
| UtilityTool.Urls | src/mastra/tools/shadcn-svelte-utility.ts:73-124 | one `fetchGeneralDocs` URL per path, in order |
| UtilityTool.Gather | src/mastra/tools/shadcn-svelte-utility.ts:33-90 | a hit yields the cached markdown and fetches nothing; a miss yields content exactly when some page is usable, and then it is the markdown of the first usable page, never empty; otherwise it reports the first page's error after fetching every page |
| UtilityTool.InstallGuideShape | src/mastra/tools/shadcn-svelte-utility.ts:53-62 | the guide opens with its heading, then the framework line when a framework is named, then the content, and ends with the package-manager note |
| UtilityTool.MigrationFallsBack | src/mastra/tools/shadcn-svelte-utility.ts:73-89 | the Svelte 5 page is fetched only when the main migration page is unusable |
| UtilityTool.MigrationReportsMainError | src/mastra/tools/shadcn-svelte-utility.ts:78-88 | when both migration pages fail, the main page's error is reported |
| UtilityTool.Respond | src/mastra/tools/shadcn-svelte-utility.ts:49-134 | the reply of a documentation action: the action's error label and the failure when there is no content, else the action's heading and the content; `InstallGuideShape` gives the installation layout |
| UtilityTool.UtilityKeepsCacheHealthy | src/mastra/tools/shadcn-svelte-utility.ts:45-128 | a documentation action stores only non-empty markdown under its content key |
| UtilityTool.RepeatServedFromCache | src/mastra/tools/shadcn-svelte-utility.ts:33-38 | after an action stored its content, repeating it fetches nothing, replies the same and changes nothing |
| UtilityTool.CollectGeneral | src/mastra/tools/shadcn-svelte-utility.ts:64-132 | the cache lookup and page fetches of `migrate`, `theme` and `cli` follow `Gather` and store what it yields |
| UtilityTool.CollectInstallation | src/mastra/tools/shadcn-svelte-utility.ts:32-51 | the installation lookup and fetch follow `Gather` and store what it yields |
| UtilityTool.FetchPages | src/mastra/tools/shadcn-svelte-utility.ts:73-89 | the first page is fetched, and the second only when the first is unusable, exactly as `Gather` says; the cache gains the first usable page and nothing otherwise |
| UtilityTool.Execute | src/mastra/tools/shadcn-svelte-utility.ts:27-204 | the reply, fetches and cache follow `Gather`; `help` and unknown actions touch neither the site nor the cache; the package manager defaults to `npm` |
| UtilityTool.Stored | src/mastra/tools/shadcn-svelte-utility.ts:45-47 | the cache after an action: fetched content is saved under the action's key, and a hit or a failure leaves it as it was; `RepeatServedFromCache` relies on it |
| UtilityTool.InstallNote | src/mastra/tools/shadcn-svelte-utility.ts:60 | the closing note that the examples can be adapted for the chosen package manager |
| UtilityTool.InstallGuide | src/mastra/tools/shadcn-svelte-utility.ts:53-62 | the installation reply: heading, a `**Framework:**` line only for a named framework, the content, then the note; `InstallGuideShape` states the layout |
| UtilityTool.ErrorLabel | src/mastra/tools/shadcn-svelte-utility.ts:49-130 | the `Error fetching … docs: ` prefix for each of `install`, `migrate`, `theme` and `cli`; `Respond` puts it before the failure |
| UtilityTool.UnknownAction | src/mastra/tools/shadcn-svelte-utility.ts:204 | the reply for any other action, naming it and the five valid actions; `Execute` gives it without touching the cache |
| LocalFiles.Read | src/mastra/tools/shadcn-svelte-migration.ts:19 | a file in the folder gives its read result; a missing one throws an error naming the folder |
| LocalFiles.Loaded | src/mastra/tools/shadcn-svelte-migration.ts:17-23 | a read text is returned as is; a thrown error becomes a text starting `Error reading file: ` |
| LocalFiles.ReadMarkdownFile | src/mastra/tools/shadcn-svelte-migration.ts:17-23 | `readMarkdownFile` never throws: the file's text, or a text starting `Error reading file: `; the installation tool's copy is the same |
| LocalFiles.ReadableIffClean | src/mastra/tools/shadcn-svelte-migration.ts:41-58 | a failed read is never taken for a file; a file is taken exactly when its text does not mention `Error reading file` |
| LocalFiles.BaseName | src/mastra/tools/shadcn-svelte-migration.ts:73 | for a markdown entry, `replace(".md", "")` removes exactly three characters |
| LocalFiles.IsMarkdownName | src/mastra/tools/shadcn-svelte-migration.ts:67 | `extname(item) === ".md"`: a name of at least one character followed by `.md`; `BaseName` proves such a name loses exactly those three characters |
| LocalFiles.Scan | src/mastra/tools/shadcn-svelte-migration.ts:63-76 | the sections of the kept entries in listing order; `ScanFolder` is proved to push exactly these, and `CollectMembers` characterises them |
| LocalFiles.ScanFolder | src/mastra/tools/shadcn-svelte-migration.ts:63-76 | the scan loop pushes a section for exactly the `.md` entries whose lowercased text mentions a keyword, in listing order; the installation tool runs the same loop |
| LocalFiles.ScanReportsNone | src/mastra/tools/shadcn-svelte-migration.ts:78-80 | a listing with no kept entry gives the "no guides found" text |
| LocalFiles.ReportScan | src/mastra/tools/shadcn-svelte-migration.ts:62-83 | the fallback joins the kept sections with newlines, gives the empty text without any, and reports a listing error; the installation tool's fallback is the same |
| LocalFiles.ScanReport | src/mastra/tools/shadcn-svelte-migration.ts:62-83 | the fallback's text: the listing error, the kept sections joined by newlines, or the no-guides text; `ScanReportsNone` proves the last case |
| LocalFiles.ErrorGetsHint | src/mastra/tools/shadcn-svelte-migration.ts:114-119 | every `Error reading` text gets the hint appended |
| LocalFiles.HintOnlyOnFailure | src/mastra/tools/shadcn-svelte-migration.ts:114-121 | a guide mentioning neither marker is returned unchanged; one mentioning either is extended; the installation tool applies the same rule |
| LocalFiles.WithHint | src/mastra/tools/shadcn-svelte-migration.ts:114-121 | `execute`'s hint rule; `HintOnlyOnFailure` proves the hint is appended exactly when a marker occurs, `ErrorGetsHint` that every error gets it |
| LocalFiles.Readable | src/mastra/tools/shadcn-svelte-migration.ts:41 | a text counts as read when it does not mention `Error reading file`; `ReadableIffClean` ties it to the read result |
| LocalFiles.MentionsAny | src/mastra/tools/shadcn-svelte-migration.ts:69-72 | the lowercased text contains one of the keywords (`migrat`, `upgrad` for migration, `install` for installation) |
| LocalFiles.Selected | src/mastra/tools/shadcn-svelte-migration.ts:67-72 | an entry the scan keeps: a `.md` name whose read text mentions a keyword; `ScanFolder` pushes exactly these |
| LocalFiles.Entry | src/mastra/tools/shadcn-svelte-migration.ts:73 | the section for a kept entry: `## ` and its base name, the text, then the `---` separator |
| LocalFiles.Hint | src/mastra/tools/shadcn-svelte-migration.ts:118 | the sentence pointing at the general documentation for the topic; `HintOnlyOnFailure` says when it is appended |
| MigrationTool.VersionFileNeedsBothVersions | src/mastra/tools/shadcn-svelte-migration.ts:35 | without both versions the version-pair file plays no part |
| MigrationTool.VersionFileShadowsRest | src/mastra/tools/shadcn-svelte-migration.ts:35-44 | a readable version-pair file decides the guide whatever the framework and the listing |
| MigrationTool.FrameworkFileShadowsRest | src/mastra/tools/shadcn-svelte-migration.ts:46-53 | with no usable version-pair file, a readable framework file decides the guide under its heading, whatever `index.md` and the folder listing hold |
| MigrationTool.IndexShadowsScan | src/mastra/tools/shadcn-svelte-migration.ts:55-60 | a readable `index.md` means the folder is never scanned |
| MigrationTool.MigrationGuide | src/mastra/tools/shadcn-svelte-migration.ts:26-84 | the guide: the first readable of version pair, framework file and `index.md`, else the scan; the precedence lemmas around it state each step |
| MigrationTool.ChooseGuide | src/mastra/tools/shadcn-svelte-migration.ts:34-60 | the early returns give the first readable of the version-pair file, the framework file and `index.md`, each under its own heading, as `Chosen` orders them; none when all three fail |
| MigrationTool.GetMigrationGuide | src/mastra/tools/shadcn-svelte-migration.ts:26-84 | the early returns and the scan loop give `MigrationGuide`: version pair, framework file, `index.md`, then the scan |
| MigrationTool.Execute | src/mastra/tools/shadcn-svelte-migration.ts:106-122 | the guide, with the hint when it reports a read error or no guides |
| MigrationTool.EmptyScanGetsHint | src/mastra/tools/shadcn-svelte-migration.ts:78-119 | no readable source and no kept entry gives "No migration guides found" followed by the hint |
| MigrationTool.ListingErrorGetsHint | src/mastra/tools/shadcn-svelte-migration.ts:81-119 | no readable source and an unlistable folder gives the listing error followed by the hint |
| MigrationTool.VersionFile | src/mastra/tools/shadcn-svelte-migration.ts:38 | the file name `v<from>-to-v<to>.md` |
| MigrationTool.VersionGuide | src/mastra/tools/shadcn-svelte-migration.ts:35-44 | the version-pair guide under `# Migration Guide: v<from> to v<to>`, only when both versions are given and the file is readable |
| MigrationTool.FrameworkGuide | src/mastra/tools/shadcn-svelte-migration.ts:47-53 | the framework guide under `# Migration Guide for <framework>`, only when a framework is named and its file is readable |
| MigrationTool.GeneralGuide | src/mastra/tools/shadcn-svelte-migration.ts:56-60 | the `index.md` guide under `# General Migration Guide`, only when it is readable |
| MigrationTool.Chosen | src/mastra/tools/shadcn-svelte-migration.ts:33-60 | the early returns: the first of the version, framework and general guides that exists, or none; `ChooseGuide` is proved equal to it and the `…ShadowsRest` lemmas state the precedence |
| InstallationTool.InstructionsNameTheManager | src/mastra/tools/shadcn-svelte-installation.ts:80-109 | every instruction text opens with `# Using <manager>` |
| InstallationTool.CommandsUseTheManager | src/mastra/tools/shadcn-svelte-installation.ts:81-108 | npm, yarn, pnpm and bun get a bash block running that manager; any other gets the note `Please refer to your package manager's documentation for installation commands.` |
| InstallationTool.PackageManagerInstructions | src/mastra/tools/shadcn-svelte-installation.ts:80-109 | the heading and commands for a package manager; `InstructionsNameTheManager` and `CommandsUseTheManager` state what they hold |
| InstallationTool.FrameworkGuideIgnoresPackageManager | src/mastra/tools/shadcn-svelte-installation.ts:35-41 | a readable framework file decides the guide whatever the package manager and the listing |
| InstallationTool.PackageManagerOnlyAppends | src/mastra/tools/shadcn-svelte-installation.ts:44-56 | from `index.md`, naming a package manager only appends its section |
| InstallationTool.InstallationGuide | src/mastra/tools/shadcn-svelte-installation.ts:27-77 | the guide: the framework file, else `index.md` with the manager section, else the scan; `FrameworkGuideIgnoresPackageManager` and `PackageManagerOnlyAppends` state the steps |
| InstallationTool.ChooseGuide | src/mastra/tools/shadcn-svelte-installation.ts:34-56 | the early returns give the framework file, else `index.md` with the manager section, as `Chosen` orders them; none when both fail |
| InstallationTool.GetInstallationGuide | src/mastra/tools/shadcn-svelte-installation.ts:27-77 | the early-return chain and scan loop give `InstallationGuide`: framework file, `index.md` with the manager section, then the scan |
| InstallationTool.Execute | src/mastra/tools/shadcn-svelte-installation.ts:125-141 | the guide, with the hint when it reports a read error or no guides |
| InstallationTool.EmptyScanGetsHint | src/mastra/tools/shadcn-svelte-installation.ts:71-138 | no readable source and no kept entry gives "No installation guides found" followed by the hint |
| InstallationTool.ListingErrorReported | src/mastra/tools/shadcn-svelte-installation.ts:74-76 | an unlistable folder yields `Error reading installation guides: ` and the error |
| InstallationTool.ListingErrorGetsHint | src/mastra/tools/shadcn-svelte-installation.ts:74-138 | that error is followed by the hint |
| InstallationTool.UsingHeading | src/mastra/tools/shadcn-svelte-installation.ts:106 | the `# Using <manager>` line every instruction text opens with |
| InstallationTool.Commands | src/mastra/tools/shadcn-svelte-installation.ts:81-107 | `npm install` and `npm run dev` for npm, `add` and `dev` for yarn, pnpm and bun, and for any other manager the note pointing to its documentation; `CommandsUseTheManager` states it |
| InstallationTool.ManagerSection | src/mastra/tools/shadcn-svelte-installation.ts:50-53 | the `## Using <manager>` section appended to the general guide, holding that manager's instructions |
| InstallationTool.FrameworkGuide | src/mastra/tools/shadcn-svelte-installation.ts:35-41 | the framework guide under `# Installation Guide for <framework>`, only when a framework is named and its file is readable |
| InstallationTool.GeneralGuide | src/mastra/tools/shadcn-svelte-installation.ts:44-56 | the `index.md` guide under `# General Installation Guide`, with the manager section when a manager is named, only when `index.md` is readable |
| InstallationTool.Chosen | src/mastra/tools/shadcn-svelte-installation.ts:33-56 | the early returns: the framework guide, else the general guide, else none; `ChooseGuide` is proved equal to it and `FrameworkGuideIgnoresPackageManager` states the precedence |
| Filtering.Collect | src/mastra/tools/shadcn-svelte-component-search.ts:32-52 | `filter` then `map` never yields more items than it is given |
| Filtering.CollectConcat | src/mastra/tools/shadcn-svelte-migration.ts:66-76 | collecting two runs collects each in turn, keeping the order |
| Filtering.CollectMembers | src/mastra/tools/shadcn-svelte-component-search.ts:32-52 | an item is collected exactly when it renders an accepted element |
| Filtering.CollectAll | src/mastra/tools/shadcn-svelte-component-search.ts:32-52 | when every element is accepted, each is rendered at its own position |
| Filtering.CollectEmptyIffNoneKept | src/mastra/tools/shadcn-svelte-migration.ts:78-80 | nothing is collected exactly when no element is accepted |
| Strings.Shown | src/mastra/tools/shadcn-svelte-get.ts:45 | a present string prints as itself, a missing one as `undefined` |
| Strings.IndexOf | src/mastra/tools/shadcn-svelte-docs-search.ts:59 | the position `replace` cuts at: the first occurrence, or none exactly when the text does not contain the pattern |
| Strings.RemoveFirst | src/mastra/tools/shadcn-svelte-migration.ts:73 | `replace` with a string pattern cuts out exactly the first occurrence and keeps the text on both sides, or changes nothing when there is none |
| Strings.ToLower | src/mastra/tools/shadcn-svelte-migration.ts:70-71 | lowercasing keeps the length and maps each character |
| Strings.Split | scripts/analyze-commits.js:35 | `split` gives at least one piece, none containing the separator |
| Strings.JoinSplit | scripts/analyze-commits.js:35 | joining the pieces of a split with the separator gives the text back |
| Strings.TrimStart | scripts/sync-versions.js:7-9 | `trim` removes only white space from the front, all of it, and leaves a suffix that opens with a visible character or is empty |
| Strings.TrimEnd | scripts/sync-versions.js:7-9 | `trim` removes a trailing run of white space and leaves a prefix |
| Strings.RunFrom | scripts/analyze-commits.js:6 | the maximal run of characters with a property, from a given index |
| Strings.OrElse | src/mastra/tools/shadcn-svelte-component-search.ts:47-49 | `s || fallback` for a string: the empty string falls back |
| Strings.NatToString | src/mastra/tools/shadcn-svelte-component-search.ts:90 | a count prints as at least one decimal digit |
| Strings.NatToStringInjective | src/mastra/tools/shadcn-svelte-component-search.ts:90 | different counts print differently |
| Strings.Contains | src/mastra/tools/shadcn-svelte-docs-search.ts:62 | `includes`: some position holds the pattern |
| Strings.Join | src/mastra/tools/shadcn-svelte-docs-search.ts:81 | `Array.prototype.join`: the parts with the separator between neighbours; `JoinSplit` proves it undoes `Split` |
| Strings.Trim | src/mastra/tools/shadcn-svelte-component-details.ts:108 | `trim`: `TrimStart` then `TrimEnd`, whose contracts say exactly the white space at each end is removed |
| ComponentSearch.Summarize | src/mastra/tools/shadcn-svelte-component-search.ts:46-52 | the summary keeps the name and every given description, category, type and dependency list; an empty or missing description, category or type becomes its default, so none is empty; missing dependencies become the empty list |
| ComponentSearch.SearchComponents | src/mastra/tools/shadcn-svelte-component-search.ts:28-53 | the summaries of the items passing the filter; `ResultsAreTheMatches`, `ResultsKeepRegistryOrder` and `EmptyQueryListsEverything` characterise them |
| ComponentSearch.ResultsAreTheMatches | src/mastra/tools/shadcn-svelte-component-search.ts:28-53 | a summary is returned exactly when it summarises a registry item whose name, description or a keyword contains the lowercased query and whose category and type agree when given |
| ComponentSearch.ResultsKeepRegistryOrder | src/mastra/tools/shadcn-svelte-component-search.ts:32-52 | results follow registry order |
| ComponentSearch.EmptyQueryListsEverything | src/mastra/tools/shadcn-svelte-component-search.ts:32-52 | an empty query without filters returns every item, each at its own position |
| ComponentSearch.ReplyReportsCount | src/mastra/tools/shadcn-svelte-component-search.ts:79-90 | the reply opens with `Found <n>` exactly when there are results, and with `No components found` exactly when there are none |
| ComponentSearch.CountReadBack | src/mastra/tools/shadcn-svelte-component-search.ts:90 | the count can be read back from the reply as the digits after `Found ` |
| ComponentSearch.ReplyDeterminesCount | src/mastra/tools/shadcn-svelte-component-search.ts:90 | two replies that are equal report the same number of results |
| ComponentSearch.SearchReply | src/mastra/tools/shadcn-svelte-component-search.ts:79-90 | the not-found text without results, else the count heading and the formatted results; `ReplyReportsCount` proves the heading appears exactly with results |
| ComponentSearch.Execute | src/mastra/tools/shadcn-svelte-component-search.ts:74-91 | the reply for the search's results; `NothingFoundIffNoMatch` proves it is the not-found text exactly when no item passes |
| ComponentSearch.NothingFoundIffNoMatch | src/mastra/tools/shadcn-svelte-component-search.ts:19-81 | the tool reports nothing found exactly when no registry item passes the filter; an unreadable registry counts as empty |
| ComponentSearch.ItemsOf | src/mastra/tools/shadcn-svelte-component-search.ts:19-25 | the registry's items, or none when it cannot be read or parsed (`{ items: [] }`) |
| ComponentSearch.MatchesQuery | src/mastra/tools/shadcn-svelte-component-search.ts:33-38 | the lowercased name, description or some keyword contains the lowercased query; a missing description or keyword list does not match |
| ComponentSearch.Matches | src/mastra/tools/shadcn-svelte-component-search.ts:32-44 | the filter: the query matches, and a given category and type equal the item's; `ResultsAreTheMatches` proves the results are exactly the summaries of these items |
| ComponentSearch.FormatSummary | src/mastra/tools/shadcn-svelte-component-search.ts:86 | one result: name, description, category, type and the dependencies joined by `, `, or `None` when there are none |
| ComponentSearch.FoundHeading | src/mastra/tools/shadcn-svelte-component-search.ts:90 | `Found <n> component(s) matching your search:`; `CountReadBack` reads the count back |
| ComponentSearch.Listing | src/mastra/tools/shadcn-svelte-component-search.ts:83-88 | the formatted results in order, separated by newlines |
| ComponentSearch.NothingFound | src/mastra/tools/shadcn-svelte-component-search.ts:80 | the no-components text naming the query and any given category and type; `NothingFoundIffNoMatch` says when it appears |
| ComponentDetails.FindItem | src/mastra/tools/shadcn-svelte-component-details.ts:29-31 | the index of the first item whose name equals the requested one exactly, or none exactly when no item has that name |
| ComponentDetails.GetComponentDetails | src/mastra/tools/shadcn-svelte-component-details.ts:24-58 | the details of the first entry with the name, or the read or not-found error; `FoundIffNamed` and `DocumentationFallback` state both |
| ComponentDetails.FilePaths | src/mastra/tools/shadcn-svelte-component-details.ts:48 | one path per file entry, in order, or none when the item has no `files` |
| ComponentDetails.FoundIffNamed | src/mastra/tools/shadcn-svelte-component-details.ts:24-58 | details exist exactly when the registry is readable and names the component; they then describe its first such entry |
| ComponentDetails.DocumentationFallback | src/mastra/tools/shadcn-svelte-component-details.ts:40-50 | the documentation is never empty: `Documentation not found` stands for an empty file, and a missing file gives its read-error text |
| ComponentDetails.NoPropsIffEmpty | src/mastra/tools/shadcn-svelte-component-details.ts:80-88 | `No props documented` is shown exactly when there are no props |
| ComponentDetails.PageOpensWithHeading | src/mastra/tools/shadcn-svelte-component-details.ts:90-108 | the trimmed page opens with `# <name> Component` |
| ComponentDetails.Page | src/mastra/tools/shadcn-svelte-component-details.ts:90-108 | the trimmed details page; `PageOpensWithHeading` proves it opens with the component's heading |
| ComponentDetails.Execute | src/mastra/tools/shadcn-svelte-component-details.ts:71-109 | the page when found, the not-found reply on every error; `PageIffFound` proves both directions |
| ComponentDetails.PageIffFound | src/mastra/tools/shadcn-svelte-component-details.ts:71-108 | the tool shows a page exactly when the details are found, and the not-found reply otherwise |
| ComponentDetails.DetailsOf | src/mastra/tools/shadcn-svelte-component-details.ts:42-51 | the found item's fields; missing dependencies and props become empty, files become their paths, and empty documentation becomes `Documentation not found` (`DocumentationFallback`) |
| ComponentDetails.PropLine | src/mastra/tools/shadcn-svelte-component-details.ts:85 | `- **<name>**: <type> - <description>`, with `No description` for a missing or empty description |
| ComponentDetails.PropsInfo | src/mastra/tools/shadcn-svelte-component-details.ts:80-88 | one prop line per prop joined by newlines, or `No props documented`; `NoPropsIffEmpty` states the iff |
| ComponentDetails.PageHeading | src/mastra/tools/shadcn-svelte-component-details.ts:91 | `# <name> Component`; `PageOpensWithHeading` proves the page opens with it |
| ComponentDetails.PageBody | src/mastra/tools/shadcn-svelte-component-details.ts:93-107 | type, category and description, the dependencies or `None`, the file list, the props section and the documentation |
| ComponentDetails.NotFoundReply | src/mastra/tools/shadcn-svelte-component-details.ts:77 | the reply for every lookup error, pointing at the component search tool; `PageIffFound` says when it is given |
| DocsSearch.FirstHeading | src/mastra/tools/shadcn-svelte-docs-search.ts:56-58 | the index of the first line starting with `# `, or none exactly when no line does |
| DocsSearch.Title | src/mastra/tools/shadcn-svelte-docs-search.ts:55-59 | the heading's text or else the file name without `.md`, with `||` semantics; `TitleFromHeading` states both cases |
| DocsSearch.TitleFromHeading | src/mastra/tools/shadcn-svelte-docs-search.ts:55-59 | a first heading with text after `# ` gives the title; without a heading the file name minus `.md` does |
| DocsSearch.Preview | src/mastra/tools/shadcn-svelte-docs-search.ts:67-68 | the first 20 lines rejoined and cut at 800 characters: a prefix of those lines and of the file, at most 800 characters long, and either all of those lines or exactly 800 characters |
| DocsSearch.Rendered | src/mastra/tools/shadcn-svelte-docs-search.ts:70-72 | one rendered section per hit, in order |
| DocsSearch.RenderedConcat | src/mastra/tools/shadcn-svelte-docs-search.ts:42-75 | rendering two runs of hits renders each in turn |
| DocsSearch.SearchDirectory | src/mastra/tools/shadcn-svelte-docs-search.ts:39-76 | the loop over a folder's entries pushes exactly the rendered hits of the walk, in listing order |
| DocsSearch.SearchEntry | src/mastra/tools/shadcn-svelte-docs-search.ts:43-74 | one entry contributes the walk of a subfolder the category admits, or the section of a matching markdown file |
| DocsSearch.SearchDocumentation | src/mastra/tools/shadcn-svelte-docs-search.ts:35-83 | the corrected search: the walk from an empty label, joined, or the not-found text |
| DocsSearch.SearchText | src/mastra/tools/shadcn-svelte-docs-search.ts:35-83 | the corrected search: the walk starts with an empty label so the category prunes subfolders; `CorrectedSearchStaysInCategory` and `NotFoundIffNoResults` state what it reports |
| DocsSearch.SearchTextAsWritten | src/mastra/tools/shadcn-svelte-docs-search.ts:35-83 | the search as written, starting with the category as the label; `CategoryIgnoredAsWritten` proves the category never prunes anything |
| DocsSearch.Execute | src/mastra/tools/shadcn-svelte-docs-search.ts:108-122 | `execute` over the CORRECTED search `SearchText`, not the as-written walk of line 78: the category search, with the broader search offered when it finds nothing; `BroaderOnlyWithResults` and `NoCategoryNoRetry` state when |
| DocsSearch.NotFoundIffNoResults | src/mastra/tools/shadcn-svelte-docs-search.ts:80-82 | the reply opens with `No documentation found` exactly when there are no results |
| DocsSearch.RenderedAreSections | src/mastra/tools/shadcn-svelte-docs-search.ts:71 | every rendered result opens with `## ` |
| DocsSearch.BroaderOnlyWithResults | src/mastra/tools/shadcn-svelte-docs-search.ts:113-121 | broader results are offered only when the category search found nothing and the broader search finds something |
| DocsSearch.NoCategoryNoRetry | src/mastra/tools/shadcn-svelte-docs-search.ts:113-121 | without a category the retry never changes the reply |
| DocsSearch.LabelsWithinCategory | src/mastra/tools/shadcn-svelte-docs-search.ts:47-52 | a walk that prunes by the category labels every hit with the starting label or a label containing the category |
| DocsSearch.CorrectedSearchStaysInCategory | src/mastra/tools/shadcn-svelte-docs-search.ts:47-78 | the corrected search reports only files in subfolders whose label contains the category, or files lying directly in the content folder |
| DocsSearch.CategoryNeverPrunes | src/mastra/tools/shadcn-svelte-docs-search.ts:47-52 | once the label contains the category, no subfolder is ever skipped |
| DocsSearch.CountIgnoresLabel | src/mastra/tools/shadcn-svelte-docs-search.ts:39-76 | how many hits an unfiltered walk finds does not depend on the labels |
| DocsSearch.CategoryIgnoredAsWritten | src/mastra/tools/shadcn-svelte-docs-search.ts:50-78 | as written, a category search finds exactly as many results as the search without one |
| DocsSearch.MigrationSearchFindsInstallation | src/mastra/tools/shadcn-svelte-docs-search.ts:50-78 | as written, a `migration` search reports a file under `installation`; the corrected search does not |
| DocsSearch.ShortFilePreviewedWhole | src/mastra/tools/shadcn-svelte-docs-search.ts:68 | a file of at most 20 lines and 800 characters is previewed whole |
| DocsSearch.FileMatches | src/mastra/tools/shadcn-svelte-docs-search.ts:62-64 | the match test: the lowercased text, title or file name contains the lowercased query |
| DocsSearch.FileHits | src/mastra/tools/shadcn-svelte-docs-search.ts:53-72 | one hit for a matching `.md` file, with its title, its path below the docs folder, the current label and its preview; nothing for any other file |
| DocsSearch.SubCategory | src/mastra/tools/shadcn-svelte-docs-search.ts:47-49 | a subfolder's label: the parent label, `/` and the name, or the name alone under an empty label |
| DocsSearch.Descends | src/mastra/tools/shadcn-svelte-docs-search.ts:50 | the walk enters a subfolder when no category is given or the subfolder's label contains it |
| DocsSearch.EntryHits | src/mastra/tools/shadcn-svelte-docs-search.ts:42-53 | one entry's hits: a file's `FileHits`, or the hits of a subfolder the walk enters, under its new label |
| DocsSearch.Hits | src/mastra/tools/shadcn-svelte-docs-search.ts:39-76 | `searchDirectory`: the hits of the entries in listing order; `SearchDirectory` is proved equal to it |
| DocsSearch.Render | src/mastra/tools/shadcn-svelte-docs-search.ts:70-72 | the text pushed for a hit: `## ` and the title, file, category, the preview with `...`, and the `---` separator; `RenderedAreSections` states its shape |
| DocsSearch.Report | src/mastra/tools/shadcn-svelte-docs-search.ts:80-82 | the results joined with newlines, or the not-found text naming the query and any category; `NotFoundIffNoResults` states the iff |
| DocsSearch.EntryLabelsWithinCategory | src/mastra/tools/shadcn-svelte-docs-search.ts:47-51 | in the corrected walk, every hit of an entry carries the current label or a label containing the category |
| DocsSearch.EntryNeverPruned | src/mastra/tools/shadcn-svelte-docs-search.ts:50 | under a label that already contains the category, the filter changes none of an entry's hits |
| DocsSearch.EntryCountIgnoresLabel | src/mastra/tools/shadcn-svelte-docs-search.ts:47-49 | without a category, the number of an entry's hits does not depend on the starting label |
| DocsSearch.FoundInEnteredFolder | src/mastra/tools/shadcn-svelte-docs-search.ts:51 | a folder holding one matching markdown file yields one hit when its label contains the category |
| DocsSearch.SkippedFolder | src/mastra/tools/shadcn-svelte-docs-search.ts:50 | from an empty label, a folder whose name does not contain the category yields nothing |
| AnalyzeCommits.ParseRender | scripts/analyze-commits.js:4-10 | every well-formed header (letter type, optional non-empty scope without `)`, optional `!`, one-line subject), written with any white space after the colon, is parsed back to itself |
| AnalyzeCommits.ParseSound | scripts/analyze-commits.js:4-10 | whatever the parser accepts is a well-formed header written with some white space after the colon |
| AnalyzeCommits.ColonRender | scripts/analyze-commits.js:6 | `:`, white space and a good subject parse to that subject |
| AnalyzeCommits.BangRender | scripts/analyze-commits.js:6 | an optional `!` before the colon is read as the breaking flag |
| AnalyzeCommits.ScopeRender | scripts/analyze-commits.js:6 | a parenthesised scope is read back exactly |
| AnalyzeCommits.ColonSound | scripts/analyze-commits.js:6 | an accepted colon stage is `:`, white space and a one-line subject not opening with white space |
| AnalyzeCommits.BangSound | scripts/analyze-commits.js:6 | an accepted text after the scope is the optional `!` followed by an accepted colon stage |
| AnalyzeCommits.ScopedSound | scripts/analyze-commits.js:6 | an accepted `(` opens a non-empty scope without `)` closed by the first `)` |
| AnalyzeCommits.ScopeSound | scripts/analyze-commits.js:6 | an accepted text after the type is its scope text followed by the rest |
| AnalyzeCommits.ParseHeader | scripts/analyze-commits.js:4-10 | the header regex matched stage by stage; `ParseRender` and `ParseSound` prove it accepts exactly the well-formed headers and reads back their parts |
| AnalyzeCommits.BumpFromCommit | scripts/analyze-commits.js:12-23 | never `none`; major exactly for breaking headers; minor exactly for a non-breaking `feat` with scope `minor` (any case); no release exactly for unparsed headers and other types |
| AnalyzeCommits.MostSignificant | scripts/analyze-commits.js:25-30 | a missing side yields the other (or `none`); otherwise one of the two, ranked at least as high as both |
| AnalyzeCommits.RankInjective | scripts/analyze-commits.js:26 | different release types have different ranks |
| AnalyzeCommits.MostSignificantSymmetric | scripts/analyze-commits.js:29 | the order of the two arguments does not matter |
| AnalyzeCommits.BumpOf | scripts/analyze-commits.js:44-45 | `bumpFromCommit(parseHeader(h)) || 'none'`; `BumpFromCommit` states its rules |
| AnalyzeCommits.Overall | scripts/analyze-commits.js:41-49 | the fold of `mostSignificant` over the bumps from `none`; `OverallIsMaximum` proves it is their maximum |
| AnalyzeCommits.NoCommitsIffBlank | scripts/analyze-commits.js:35-39 | there are no commits exactly when every line of the log is empty |
| AnalyzeCommits.OverallIsMaximum | scripts/analyze-commits.js:41-49 | the overall type ranks at least as high as every commit's bump, and is `none` or some commit's bump |
| AnalyzeCommits.OverallBoundsEvery | scripts/analyze-commits.js:41-49 | no commit's bump ranks above the overall type |
| AnalyzeCommits.OverallIsSomeBump | scripts/analyze-commits.js:41-49 | the overall type is `none` or the bump of one of the commits |
| AnalyzeCommits.OverallOrderIndependent | scripts/analyze-commits.js:41-49 | the overall type depends only on which headers occur, not on their order |
| AnalyzeCommits.AnalysisOf | scripts/analyze-commits.js:32-52 | no commits exactly when the log has no non-empty line; otherwise the header count and a type no commit's bump ranks above, which is `none` or some commit's bump |
| AnalyzeCommits.Analyze | scripts/analyze-commits.js:32-52 | the loop reports no commits for a blank log, otherwise the number of headers and the fold of their bumps |
| AnalyzeCommits.Rank | scripts/analyze-commits.js:26 | the order `none` < `patch` < `minor` < `major`; `RankInjective` proves distinct levels rank differently |
| AnalyzeCommits.Headers | scripts/analyze-commits.js:35 | the non-empty lines of the log, in order; `NoCommitsIffBlank` states when there are none |
| VersionPattern.KeyAtIsKey | scripts/update-version-in-code.js:23 | the character test for `version:` is the occurrence of that text |
| VersionPattern.MatchAt | scripts/update-version-in-code.js:23 | a match at an index has its opening quote after the key and a non-empty value before the closing quote, and a comma after it when one is required |
| VersionPattern.ValueAt | scripts/check-versions.js:21 | a value starts at the given quote and is non-empty |
| VersionPattern.Closed | scripts/check-versions.js:21 | a value closes at a later quote, followed by a comma when one is required |
| VersionPattern.FirstFrom | scripts/check-versions.js:21 | the leftmost match from an index, or none exactly when no index from there matches |
| VersionPattern.FirstMatchAt | scripts/check-versions.js:21 | a match with none before it is the first match |
| VersionPattern.ExpandLiteral | scripts/update-version-in-code.js:23 | a replacement without a dollar sign is inserted as it is |
| VersionPattern.Update | scripts/update-version-in-code.js:23 | without a comma-terminated match the text is unchanged |
| VersionPattern.Extract | scripts/check-versions.js:21-26 | the value found is non-empty and quote-free; nothing is found exactly when no index matches |
| VersionPattern.ExtractFirst | scripts/check-versions.js:26 | the value is the text between the quotes of the first match |
| VersionPattern.ReplacementLayout | scripts/update-version-in-code.js:23 | the replacement is the key, a space, the quoted version and a comma |
| VersionPattern.UpdateSplices | scripts/update-version-in-code.js:23 | for a dollar-free version the first comma-terminated match is replaced by the new line and nothing else changes |
| VersionPattern.KeyNoOverlap | scripts/update-version-in-code.js:23 | two occurrences of the key do not overlap |
| VersionPattern.RunAgree | scripts/update-version-in-code.js:23 | two texts that agree up to where a run stops have the same run |
| VersionPattern.MatchLayout | scripts/check-versions.js:21 | a match is the key, white space, a quote, quote-free text, a quote and the comma when required |
| VersionPattern.EarlierAttempt | scripts/update-version-in-code.js:23 | rewriting a line creates no new match before it, except a comma match when the new version opens with a comma |
| VersionPattern.EarlierValue | scripts/update-version-in-code.js:23 | the value part of such an earlier attempt behaves the same |
| VersionPattern.SplicedLayout | scripts/update-version-in-code.js:23 | the rewritten text agrees with the old one before the line and holds the new line where the old one began |
| VersionPattern.SplicedMatch | scripts/update-version-in-code.js:23 | the new line matches both patterns and carries the new version |
| VersionPattern.SplicedFirst | scripts/update-version-in-code.js:23 | the new line stays the first match of each pattern it was first for |
| VersionPattern.UpdateIdempotent | scripts/update-version-in-code.js:23-28 | updating twice with the same version changes nothing the second time |
| VersionPattern.UpdateThenExtract | scripts/sync-versions.js:22-29 | after an update the check reads the new version back, when its first match is the line the update rewrote |
| VersionPattern.FirstMatch | scripts/update-version-in-code.js:23 | where the regex's leftmost match starts; `FirstMatchAt` proves no match starts before it |
| VersionPattern.Expand | scripts/update-version-in-code.js:23 | the replacement with `String.prototype.replace`'s `$$`, `$&`, `` $` `` and `$'` patterns expanded against the match; `ExpandLiteral` proves text without `$` is inserted as is |
| VersionPattern.Replacement | scripts/update-version-in-code.js:23 | the replacement text `version: "<v>",` |
| VersionPattern.ReplaceAt | scripts/update-version-in-code.js:23 | the text with the comma-terminated match at a position replaced by the expanded replacement; `UpdateSplices` states the splice |
| VersionScripts.UpdateResult | scripts/update-version-in-code.js:8-31 | a missing package or target fails in that order; otherwise the text is written exactly when the replacement changes it, and `No change needed` exactly when it does not |
| VersionScripts.CheckResult | scripts/check-versions.js:8-33 | a missing package or target fails in that order; `Version not found` exactly when nothing matches; `Versions match` exactly when the package version equals the extracted one |
| VersionScripts.StripLeadingV | scripts/sync-versions.js:10 | a leading `v` is removed, and nothing else |
| VersionScripts.TagVersion | scripts/sync-versions.js:7-10 | the trimmed tag without one leading `v`; `StripLeadingV` and `Strings.TrimStart`/`Strings.TrimEnd` state each step |
| VersionScripts.SetVersion | scripts/sync-versions.js:17 | the package gets the new version and keeps every other field |
| VersionScripts.SyncResult | scripts/sync-versions.js:1-29 | an unreadable package fails first, then an unreadable target; otherwise the package gets the tag version, the file its update, and the outcome is the check's; `SyncThenCheckPasses` states when it matches |
| VersionScripts.SecondRunNoChange | scripts/update-version-in-code.js:23-28 | running the update again with the same package takes the no-change branch |
| VersionScripts.UpdateThenCheckPasses | scripts/check-versions.js:21-33 | after an update (written or already current) the check passes, when it reads the rewritten line |
| VersionScripts.SyncThenCheckPasses | scripts/sync-versions.js:7-29 | a sync ends with a passing check, when the check reads the rewritten line |
| VersionScripts.SyncCheckCanReadAnotherLine | scripts/sync-versions.js:24-29 | a comma-less `version:` line before the rewritten one makes the check after a sync fail with a mismatch |
| VersionScripts.FirstUpdatedLine | scripts/sync-versions.js:24 | in that text the update rewrites the second line |
| VersionScripts.FirstCheckedLine | scripts/check-versions.js:21-26 | in the rewritten text the check still reads the first line |
| VersionScripts.Workspace.constructor | scripts/check-versions.js:5-6 | a workspace with the given package and server file |
| VersionScripts.Workspace.UpdateVersionInCode | scripts/update-version-in-code.js:1-32 | the outcome is `UpdateResult`; the server file changes only when written, and the package never does |
| VersionScripts.Workspace.CheckVersions | scripts/check-versions.js:1-33 | the outcome is `CheckResult`, and nothing changes |
| VersionScripts.Workspace.SyncVersions | scripts/sync-versions.js:1-30 | the package gets the tag's version, the server file its update (only after the package was written), and the outcome is the check on the new files |
| VersionScripts.VersionOf | scripts/check-versions.js:18 | `pkg.version`, or none when the field is missing |
| VersionScripts.ExitCode | scripts/check-versions.js:22-33 | 0 for no change, a write or a match, and 1 for every failure |
| ListTool.Chunks | src/mastra/tools/shadcn-svelte-list.ts:32-39 | the rows of three names the loop prints; `ChunksPartition` proves they partition the names in order |
| ListTool.ChunksPartition | src/mastra/tools/shadcn-svelte-list.ts:32-39 | the rows give back every name once, in order; each has one to three names, all but the last exactly three; there are ceil(n/3) rows |
| ListTool.ChunksConcat | src/mastra/tools/shadcn-svelte-list.ts:32-39 | chunking a run whose length is a multiple of three and then the rest chunks the whole |
| ListTool.RowsTextConcat | src/mastra/tools/shadcn-svelte-list.ts:32-39 | the text of rows is the text of the first rows followed by that of the others |
| ListTool.RowsTextExtend | src/mastra/tools/shadcn-svelte-list.ts:32-39 | one more slice of at most three names adds exactly its row line |
| ListTool.AllListsBoth | src/mastra/tools/shadcn-svelte-list.ts:18-78 | a missing `type` lists everything; `components` and `docs` list one section each; `all` lists both, components first |
| ListTool.OtherKindListsNothing | src/mastra/tools/shadcn-svelte-list.ts:27-44 | any other `type` leaves only the heading and the footer |
| ListTool.ListText | src/mastra/tools/shadcn-svelte-list.ts:17-83 | the reply: the error text, or heading, the requested sections and footer; `AllListsBoth` and `OtherKindListsNothing` state each `type` |
| ListTool.AppendRows | src/mastra/tools/shadcn-svelte-list.ts:32-39 | the row loop appends the rows of three names in order |
| ListTool.AppendBullets | src/mastra/tools/shadcn-svelte-list.ts:47-50 | a bullet per page, in order |
| ListTool.AppendComponents | src/mastra/tools/shadcn-svelte-list.ts:27-41 | the component section: heading, count, rows, blank line |
| ListTool.AppendSubsection | src/mastra/tools/shadcn-svelte-list.ts:46-51 | one subsection: title, bullets, blank line |
| ListTool.AppendDocs | src/mastra/tools/shadcn-svelte-list.ts:44-70 | the documentation section: the four subsections in their fixed order |
| ListTool.AppendFooter | src/mastra/tools/shadcn-svelte-list.ts:72-78 | the usage footer |
| ListTool.Execute | src/mastra/tools/shadcn-svelte-list.ts:17-83 | the reply is `ListText`: the error text when discovery fails, otherwise heading, the chosen sections and footer |
| ListTool.ListsComponents | src/mastra/tools/shadcn-svelte-list.ts:27 | the components section is listed for `components` and `all`, and a missing `type` counts as `all` |
| ListTool.ListsDocs | src/mastra/tools/shadcn-svelte-list.ts:44 | the documentation section is listed for `docs` and `all`, and a missing `type` counts as `all` |
| ListTool.RowLine | src/mastra/tools/shadcn-svelte-list.ts:34-38 | one row: its names in backticks, joined by the separator, then a newline |
| ListTool.RowsText | src/mastra/tools/shadcn-svelte-list.ts:33-39 | the row lines in order; `AppendRows` is proved to append exactly this |
| ListTool.ComponentsSection | src/mastra/tools/shadcn-svelte-list.ts:28-40 | `## Components`, the component count, the rows of three, then a blank line; `ChunksPartition` states the rows |
| ListTool.Bullets | src/mastra/tools/shadcn-svelte-list.ts:48-50 | one `` - `doc` `` line per page, in order |
| ListTool.Parts | src/mastra/tools/shadcn-svelte-list.ts:47-66 | the installation, dark-mode, migration and general subsections, in that order |
| ListTool.DocsSection | src/mastra/tools/shadcn-svelte-list.ts:45-69 | `## Documentation` and the four subsections; `AppendDocs` is proved to append exactly this |
| ListTool.DefaultListsAll | src/mastra/tools/shadcn-svelte-list.ts:18 | a missing `type` gives the same reply as `all` |
| ListTool.ComponentsListsComponents | src/mastra/tools/shadcn-svelte-list.ts:27-41 | `components` lists the heading, the components section and the footer, and nothing else |
| ListTool.DocsListsDocs | src/mastra/tools/shadcn-svelte-list.ts:44-70 | `docs` lists the heading, the documentation section and the footer, and nothing else |
| ListTool.AllListsSections | src/mastra/tools/shadcn-svelte-list.ts:27-70 | `all` lists both sections, components first, between heading and footer |

## Left out

- The HTTP transport, `fetch` and JSON parsing of the Firecrawl reply. The reply (a transport failure, or a status with its text and parsed body) is a parameter of the fetcher.
- The cache's implementation (tiers, disk format) and its 24-hour expiry. `src/services/cache-manager.js` is not part of this model. The cache is a map that keeps the last value saved under each key.
- The discovery service behind the list tool. `src/services/component-discovery.js` is not part of this model. Its result, or the text of the error it raised, is an input.
- The filesystem (`readFileSync`, `readdirSync`, `statSync`, `existsSync`). Folders are given as trees or as listings with the result of reading each file. A listing that throws is an error value.
- `registry.json` parsing. The registry is given as its items, or as the error raised while reading it.
- `git`, `execSync`, `process.exit` and console output. The tag and the `git log` text are inputs; exit codes and messages are outcomes.
- The `n` argument of `scripts/analyze-commits.js`, which only limits `git log`. The per-commit lines it prints are also left out.
- Asynchrony. Every tool call is one sequential step.
- The zod and valibot input schemas. `action`, `type` and the list tool's `type` are plain strings, so the branches for unknown values stay reachable; the schemas would reject those values first.
- The `catch` branches of the get, utility and list tools. In the model the fetcher never throws, the cache is total and discovery failure is a value, so only the list tool's error text is reachable.
- The server wiring, HTTP and SSE transport, agent configuration and the Firecrawl smoke test. They hold no logic the tools depend on.
- Strings.ToLower: lowercases ASCII letters only; JavaScript's `toLowerCase` also folds other Unicode letters.
- DocsSearch.Preview: counts Unicode code points, where JavaScript's `substring(0, 800)` counts UTF-16 code units. A text with characters outside the Basic Multilingual Plane, such as emoji, gets a longer preview in the model, and the program can cut such a character in half, which a string of code points cannot express.
- VersionPattern.UpdateIdempotent: proved for versions that contain no `"` and no `$` and do not begin with `,`. A `$` would be read as a replacement pattern, a quote would end the value early, and a leading comma can create an earlier comma-terminated match.
- VersionScripts.SecondRunNoChange: the same restriction on the version as `VersionPattern.UpdateIdempotent`.
- VersionPattern.UpdateThenExtract: holds when the check's first match is the line the update rewrote. The check needs no comma after the value and the update does, so an earlier comma-less `version:` line is read instead (`VersionScripts.SyncCheckCanReadAnotherLine`).
- VersionScripts.UpdateThenCheckPasses: the same condition as `VersionPattern.UpdateThenExtract`.
- VersionScripts.SyncThenCheckPasses: the same condition as `VersionPattern.UpdateThenExtract`, and the tag's version must also be writable (non-empty, no `"` or `$`).

## Findings

| source | as written | input that shows it | evidently intended | confidence | as-written member | corrected member |
|---|---|---|---|---|---|---|
| src/mastra/tools/shadcn-svelte-docs-search.ts:78 | the walk starts with the category itself as its label, so every subfolder's label contains the category and the filter on line 50 never skips a folder | query `install`, category `migration`, and a `content` folder holding only `installation/setup.md` whose text is `install`: one result is reported, labelled `migration/installation` | only subfolders whose path contains the category are searched | not executed | DocsSearch.MigrationSearchFindsInstallation | DocsSearch.CorrectedSearchStaysInCategory |
