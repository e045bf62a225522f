/**
 * The documentation fetcher (src/services/doc-fetcher.ts): URL construction for
 * shadcn-svelte.com pages, request defaults for the Firecrawl scrape and map
 * endpoints, normalisation of the response envelope, and the rule that every
 * failure becomes a `success: false` value instead of an exception.
 *
 * The HTTP exchange itself is a parameter: a `Scraper` maps the request body
 * to the reply the service gives (a transport failure, or a status, the body
 * text and the body parsed as JSON).  The `Firecrawl` class holds those
 * functions and a ghost log of every URL it was asked to fetch.
 */
module DocFetcher {
  import opened Wrappers
  import opened Strings

  const ShadcnBaseUrl := "https://www.shadcn-svelte.com"
  const DefaultTimeout := 30000
  const DefaultMapLimit := 100

  datatype Format = Markdown | Html | RawHtml | Links

  /** `ScrapeOptions`: every field may be left out. */
  datatype ScrapeOptions = ScrapeOptions(
    formats: Option<seq<Format>>,
    onlyMainContent: Option<bool>,
    includeTags: Option<seq<string>>,
    excludeTags: Option<seq<string>>,
    waitFor: Option<int>,
    timeout: Option<int>)

  /** The JSON body sent to `/v1/scrape`. */
  datatype ScrapeRequest = ScrapeRequest(
    url: string,
    formats: seq<Format>,
    onlyMainContent: bool,
    includeTags: Option<seq<string>>,
    excludeTags: Option<seq<string>>,
    waitFor: Option<int>,
    timeout: int)

  /** `markdown`, `html` and `metadata` as they appear at one level of the response body. */
  datatype Payload = Payload(markdown: Option<string>, html: Option<string>, metadata: Option<map<string, string>>)

  /** A scrape response body: the fields nested under `data` (when `data` is present) and at the top level. */
  datatype ScrapeBody = ScrapeBody(data: Option<Payload>, top: Payload)

  /** What `fetch` yields: a thrown transport error, or a response with its status, text and parsed JSON. */
  datatype HttpReply<B> = Unreachable(message: string) | Reply(status: nat, text: string, json: Result<B>)

  /** The normalised `ScrapeResult`. */
  datatype ScrapeResult = ScrapeResult(
    url: string,
    markdown: Option<string>,
    html: Option<string>,
    metadata: Option<map<string, string>>,
    success: bool,
    error: Option<string>)

  type Scraper = ScrapeRequest -> HttpReply<ScrapeBody>

  /** `response.ok`. */
  predicate IsOk(status: nat) {
    200 <= status <= 299
  }

  /** A result worth rendering and caching: `result.success && result.markdown`. */
  predicate Usable(r: ScrapeResult) {
    r.success && Given(r.markdown)
  }

  /** The request body for `url`: `formats || ["markdown"]`, `onlyMainContent ?? true`, `timeout || 30000`. */
  function ScrapeRequestFor(url: string, options: ScrapeOptions): (req: ScrapeRequest)
    ensures req.url == url
    ensures req.formats == options.formats.GetOr([Markdown])
    ensures req.onlyMainContent <==> options.onlyMainContent != Some(false)
    ensures req.timeout != 0
    ensures options.timeout.Some? && options.timeout.value != 0 ==> req.timeout == options.timeout.value
    ensures options.timeout.None? || options.timeout == Some(0) ==> req.timeout == DefaultTimeout
    ensures req.includeTags == options.includeTags && req.excludeTags == options.excludeTags
    ensures req.waitFor == options.waitFor
  {
    ScrapeRequest(
      url,
      options.formats.GetOr([Markdown]),
      options.onlyMainContent.GetOr(true),
      options.includeTags,
      options.excludeTags,
      options.waitFor,
      if options.timeout.None? || options.timeout.value == 0 then DefaultTimeout else options.timeout.value)
  }

  /** `nested || top` for an optional string: a non-empty nested value wins. */
  function PickText(nested: Option<string>, top: Option<string>): Option<string> {
    if Given(nested) then nested else top
  }

  /** `nested || top` for an optional object: any nested object wins. */
  function PickObject(nested: Option<map<string, string>>, top: Option<map<string, string>>): Option<map<string, string>> {
    if nested.Some? then nested else top
  }

  /** `data.data?.x || data.x` for each of `markdown`, `html` and `metadata`. */
  function Normalize(body: ScrapeBody): (p: Payload)
    ensures body.data.Some? && Given(body.data.value.markdown) ==> p.markdown == body.data.value.markdown
    ensures !(body.data.Some? && Given(body.data.value.markdown)) ==> p.markdown == body.top.markdown
    ensures body.data.Some? && Given(body.data.value.html) ==> p.html == body.data.value.html
    ensures !(body.data.Some? && Given(body.data.value.html)) ==> p.html == body.top.html
  {
    match body.data
    case None => body.top
    case Some(d) =>
      Payload(PickText(d.markdown, body.top.markdown),
              PickText(d.html, body.top.html),
              PickObject(d.metadata, body.top.metadata))
  }

  /** The payload is found whether the service nests it under `data` or sends it flat. */
  lemma NestedAndFlatAgree(p: Payload)
    ensures Given(Normalize(ScrapeBody(Some(p), Payload(None, None, None))).markdown) <==> Given(p.markdown)
    ensures Given(p.markdown) ==> Normalize(ScrapeBody(Some(p), Payload(None, None, None))).markdown == p.markdown
    ensures Normalize(ScrapeBody(None, p)) == p
  {
  }

  /** The message of the error thrown for a response that is not ok. */
  function StatusError(status: nat, text: string): string {
    "Firecrawl API error (" + NatToString(status) + "): " + text
  }

  /** `scrapeUrl` once the reply is known: never throws, every failure is a value. */
  function ScrapeUrl(url: string, reply: HttpReply<ScrapeBody>): (r: ScrapeResult)
    ensures r.url == url
    ensures r.success <==> reply.Reply? && IsOk(reply.status) && reply.json.Success?
    ensures !r.success ==> r.error.Some? && r.markdown.None? && r.html.None? && r.metadata.None?
    ensures r.success ==> r.error.None? && r.markdown == Normalize(reply.json.value).markdown
    ensures reply.Unreachable? ==> r.error == Some(reply.message)
    ensures reply.Reply? && !IsOk(reply.status) ==> r.error == Some(StatusError(reply.status, reply.text))
  {
    match reply
    case Unreachable(m) => ScrapeResult(url, None, None, None, false, Some(m))
    case Reply(status, text, json) =>
      if !IsOk(status) then ScrapeResult(url, None, None, None, false, Some(StatusError(status, text)))
      else
        match json
        case Failure(m) => ScrapeResult(url, None, None, None, false, Some(m))
        case Success(body) =>
          var p := Normalize(body);
          ScrapeResult(url, p.markdown, p.html, p.metadata, true, None)
  }

  /** A reachable page without extractable markdown is still a success, but not a usable one. */
  lemma SuccessWithoutMarkdown(url: string, status: nat, text: string)
    requires IsOk(status)
    ensures var r := ScrapeUrl(url, Reply(status, text, Success(ScrapeBody(None, Payload(None, None, None)))));
            r.success && r.markdown.None? && !Usable(r)
  {
  }

  /** What the service answers for a scrape of `url` with `options`. */
  function Fetch(scraper: Scraper, url: string, options: ScrapeOptions): ScrapeResult {
    ScrapeUrl(url, scraper(ScrapeRequestFor(url, options)))
  }

  /** `${SHADCN_BASE_URL}/docs/components/${name}`. */
  function ComponentUrl(name: string): string {
    ShadcnBaseUrl + "/docs/components/" + name
  }

  /** The options `fetchComponentDocs` passes: markdown, main content, without nav, footer and aside. */
  const ComponentOptions := ScrapeOptions(Some([Markdown]), Some(true), None, Some(["nav", "footer", "aside"]), None, None)

  /** The options `fetchInstallationDocs` and `fetchGeneralDocs` pass. */
  const PageOptions := ScrapeOptions(Some([Markdown]), Some(true), None, None, None, None)

  /** The options `testConnection` passes. */
  const ProbeOptions := ScrapeOptions(Some([Markdown]), Some(true), None, None, None, Some(10000))

  /** The page `fetchInstallationDocs` asks for. */
  function InstallationPath(framework: Option<string>): (path: string)
    ensures Given(framework) ==> path == "/docs/installation/" + framework.value
    ensures !Given(framework) ==> path == "/docs/installation"
  {
    if Given(framework) then "/docs/installation/" + framework.value else "/docs/installation"
  }

  /** The URL `fetchGeneralDocs` builds: a missing leading `/` is added. */
  function GeneralUrl(path: string): (url: string)
    ensures IsPrefix(ShadcnBaseUrl + "/", url)
  {
    ShadcnBaseUrl + (if IsPrefix("/", path) then path else "/" + path)
  }

  /** A leading slash on the path is optional, and different slashed paths name different URLs. */
  lemma GeneralUrlSlash(path: string, other: string)
    ensures GeneralUrl("/" + path) == GeneralUrl(path) || IsPrefix("/", path)
    ensures IsPrefix("/", path) ==> GeneralUrl(path) == ShadcnBaseUrl + path
    ensures IsPrefix("/", path) && IsPrefix("/", other) && GeneralUrl(path) == GeneralUrl(other) ==> path == other
  {
    if IsPrefix("/", path) && IsPrefix("/", other) && GeneralUrl(path) == GeneralUrl(other) {
      assert path == GeneralUrl(path)[|ShadcnBaseUrl|..];
      assert other == GeneralUrl(other)[|ShadcnBaseUrl|..];
    }
  }

  /** `fetchInstallationDocs` requests the same URL `fetchGeneralDocs` would for that path. */
  lemma InstallationUrlIsGeneral(framework: Option<string>)
    ensures GeneralUrl(InstallationPath(framework)) == ShadcnBaseUrl + InstallationPath(framework)
  {
    assert IsPrefix("/", InstallationPath(framework));
  }

  // ----- mapWebsite -----

  /** A link in a map response: an object that may carry `url`, or a bare string. */
  datatype Link = LinkRecord(url: Option<string>) | LinkText(text: string)

  datatype MapBody = MapBody(links: Option<seq<Link>>)

  datatype MapOptions = MapOptions(search: Option<string>, limit: Option<int>, includeSubdomains: Option<bool>)

  /** The JSON body sent to `/v1/map`. */
  datatype MapRequest = MapRequest(url: string, search: Option<string>, limit: int, includeSubdomains: bool)

  datatype MapResult = MapResult(urls: seq<Link>, success: bool, error: Option<string>)

  type Mapper = MapRequest -> HttpReply<MapBody>

  /** `limit || 100` and `includeSubdomains ?? false`. */
  function MapRequestFor(url: string, options: MapOptions): (req: MapRequest)
    ensures req.url == url && req.search == options.search
    ensures req.limit != 0
    ensures options.limit.Some? && options.limit.value != 0 ==> req.limit == options.limit.value
    ensures options.limit.None? || options.limit == Some(0) ==> req.limit == DefaultMapLimit
    ensures req.includeSubdomains <==> options.includeSubdomains == Some(true)
  {
    MapRequest(
      url,
      options.search,
      if options.limit.None? || options.limit.value == 0 then DefaultMapLimit else options.limit.value,
      options.includeSubdomains.GetOr(false))
  }

  /** `link.url || link`. */
  function MapLink(link: Link): (r: Link)
    ensures link.LinkRecord? && Given(link.url) ==> r == LinkText(link.url.value)
    ensures !(link.LinkRecord? && Given(link.url)) ==> r == link
  {
    match link
    case LinkRecord(u) => if Given(u) then LinkText(u.value) else link
    case LinkText(_) => link
  }

  /** `mapWebsite` once the reply is known. */
  function MapWebsite(reply: HttpReply<MapBody>): (r: MapResult)
    ensures r.success <==> reply.Reply? && IsOk(reply.status) && reply.json.Success?
    ensures !r.success ==> r.urls == [] && r.error.Some?
    ensures r.success && reply.json.value.links.None? ==> r.urls == []
    ensures r.success && reply.json.value.links.Some? ==>
              |r.urls| == |reply.json.value.links.value|
              && forall i :: 0 <= i < |r.urls| ==> r.urls[i] == MapLink(reply.json.value.links.value[i])
  {
    match reply
    case Unreachable(m) => MapResult([], false, Some(m))
    case Reply(status, text, json) =>
      if !IsOk(status) then MapResult([], false, Some(StatusError(status, text)))
      else
        match json
        case Failure(m) => MapResult([], false, Some(m))
        case Success(body) =>
          match body.links
          case None => MapResult([], true, None)
          case Some(links) => MapResult(seq(|links|, i requires 0 <= i < |links| => MapLink(links[i])), true, None)
  }

  // ----- testConnection -----

  datatype Verdict = Verdict(success: bool, message: string)

  /** The verdict `testConnection` gives for the probe's result. */
  function ConnectionVerdict(apiUrl: Option<string>, probe: ScrapeResult): (v: Verdict)
    ensures v.success <==> Usable(probe)
    ensures v.success ==> v.message == "Connected to Firecrawl at " + Shown(apiUrl)
    ensures !v.success && Given(probe.error) ==> v.message == probe.error.value
    ensures !v.success && !Given(probe.error) ==> v.message == "Failed to scrape test URL"
  {
    if Usable(probe) then Verdict(true, "Connected to Firecrawl at " + Shown(apiUrl))
    else Verdict(false, if Given(probe.error) then probe.error.value else "Failed to scrape test URL")
  }

  /** A failed scrape always explains itself, so the probe verdict quotes the scrape's error. */
  lemma FailedProbeQuotesError(apiUrl: Option<string>, url: string, reply: HttpReply<ScrapeBody>)
    requires reply.Unreachable? && reply.message != ""
    ensures ConnectionVerdict(apiUrl, ScrapeUrl(url, reply)) == Verdict(false, reply.message)
  {
  }

  /**
   * The Firecrawl service as the tools see it: the scrape and map exchanges,
   * the configured API URL, and a ghost log of every URL requested so far.
   */
  class Firecrawl {
    const apiUrl: Option<string>
    const scraper: Scraper
    const mapper: Mapper
    ghost var requested: seq<string>

    constructor (apiUrl: Option<string>, scraper: Scraper, mapper: Mapper)
      ensures this.apiUrl == apiUrl && this.scraper == scraper && this.mapper == mapper
      ensures requested == []
    {
      this.apiUrl := apiUrl;
      this.scraper := scraper;
      this.mapper := mapper;
      requested := [];
    }

    /** `scrapeUrl(url, options)`. */
    method Scrape(url: string, options: ScrapeOptions) returns (r: ScrapeResult)
      modifies this
      ensures requested == old(requested) + [url]
      ensures r == Fetch(scraper, url, options)
    {
      r := ScrapeUrl(url, scraper(ScrapeRequestFor(url, options)));
      requested := requested + [url];
    }

    /** `fetchComponentDocs(name)`. */
    method FetchComponentDocs(name: string) returns (r: ScrapeResult)
      modifies this
      ensures requested == old(requested) + [ComponentUrl(name)]
      ensures r == Fetch(scraper, ComponentUrl(name), ComponentOptions)
    {
      r := Scrape(ComponentUrl(name), ComponentOptions);
    }

    /** `fetchInstallationDocs(framework)`. */
    method FetchInstallationDocs(framework: Option<string>) returns (r: ScrapeResult)
      modifies this
      ensures requested == old(requested) + [GeneralUrl(InstallationPath(framework))]
      ensures r == Fetch(scraper, GeneralUrl(InstallationPath(framework)), PageOptions)
    {
      InstallationUrlIsGeneral(framework);
      r := Scrape(ShadcnBaseUrl + InstallationPath(framework), PageOptions);
    }

    /** `fetchGeneralDocs(path)`. */
    method FetchGeneralDocs(path: string) returns (r: ScrapeResult)
      modifies this
      ensures requested == old(requested) + [GeneralUrl(path)]
      ensures r == Fetch(scraper, GeneralUrl(path), PageOptions)
    {
      r := Scrape(GeneralUrl(path), PageOptions);
    }

    /** `mapWebsite(url, options)`. */
    method MapSite(url: string, options: MapOptions) returns (r: MapResult)
      modifies this
      ensures requested == old(requested) + [url]
      ensures r == MapWebsite(mapper(MapRequestFor(url, options)))
    {
      r := MapWebsite(mapper(MapRequestFor(url, options)));
      requested := requested + [url];
    }

    /** `testConnection()`: one probe of the docs root. */
    method TestConnection() returns (v: Verdict)
      modifies this
      ensures requested == old(requested) + [ShadcnBaseUrl + "/docs"]
      ensures v == ConnectionVerdict(apiUrl, Fetch(scraper, ShadcnBaseUrl + "/docs", ProbeOptions))
    {
      var probe := Scrape(ShadcnBaseUrl + "/docs", ProbeOptions);
      v := ConnectionVerdict(apiUrl, probe);
    }
  }
}
