/**
 * The `shadcn-svelte-component-search` tool
 * (src/mastra/tools/shadcn-svelte-component-search.ts): the registry items
 * whose name, description or a keyword contains the query (ignoring ASCII
 * case), narrowed by an optional category and type, summarised with
 * defaults for missing fields, and the reply that counts them.
 */
module ComponentSearch {
  import opened Wrappers
  import opened Strings
  import opened Filtering
  import opened Registry

  /** What `searchComponents` returns for one item. */
  datatype Summary = Summary(name: string, description: string, category: string, kind: string, dependencies: seq<string>)

  /** The items `readRegistry` yields: an unreadable or invalid registry counts as `{ items: [] }`. */
  function ItemsOf(registry: Contents): seq<Item> {
    if registry.Success? then registry.value else []
  }

  /** The query test, for the already lowercased search term. */
  predicate MatchesQuery(item: Item, term: string) {
    Contains(ToLower(item.name), term)
    || (item.description.Some? && Contains(ToLower(item.description.value), term))
    || (item.keywords.Some? && exists k | k in item.keywords.value :: Contains(ToLower(k), term))
  }

  /** The filter: the query matches, and the category and type agree when they are given. */
  predicate Matches(item: Item, term: string, category: Option<string>, kind: Option<string>) {
    MatchesQuery(item, term)
    && (!Given(category) || item.category == category)
    && (!Given(kind) || item.kind == kind)
  }

  /** The `map` step: missing or empty fields get their defaults. */
  function Summarize(item: Item): (s: Summary)
    ensures s.name == item.name
    ensures s.description != "" && s.category != "" && s.kind != ""
    ensures Given(item.description) ==> s.description == item.description.value
    ensures !Given(item.description) ==> s.description == "No description available"
    ensures Given(item.category) ==> s.category == item.category.value
    ensures !Given(item.category) ==> s.category == "uncategorized"
    ensures Given(item.kind) ==> s.kind == item.kind.value
    ensures !Given(item.kind) ==> s.kind == "component"
    ensures item.registryDependencies.Some? ==> s.dependencies == item.registryDependencies.value
    ensures item.registryDependencies.None? ==> s.dependencies == []
  {
    Summary(item.name,
            OrElse(item.description.GetOr(""), "No description available"),
            OrElse(item.category.GetOr(""), "uncategorized"),
            OrElse(item.kind.GetOr(""), "component"),
            item.registryDependencies.GetOr([]))
  }

  /** `searchComponents(query, category, type)`. */
  function SearchComponents(registry: Contents, query: string, category: Option<string>, kind: Option<string>): seq<Summary> {
    var term := ToLower(query);
    Collect(ItemsOf(registry), item => Matches(item, term, category, kind), Summarize)
  }

  /** A summary is in the results exactly when it summarises a registry item that passes the filter. */
  lemma ResultsAreTheMatches(registry: Contents, query: string, category: Option<string>, kind: Option<string>, s: Summary)
    ensures s in SearchComponents(registry, query, category, kind)
            <==> exists i :: 0 <= i < |ItemsOf(registry)|
                   && Matches(ItemsOf(registry)[i], ToLower(query), category, kind)
                   && s == Summarize(ItemsOf(registry)[i])
  {
    var term := ToLower(query);
    CollectMembers(ItemsOf(registry), item => Matches(item, term, category, kind), Summarize, s);
  }

  /** Results follow registry order: the items of two runs are searched one run after the other. */
  lemma ResultsKeepRegistryOrder(a: seq<Item>, b: seq<Item>, query: string, category: Option<string>, kind: Option<string>)
    ensures SearchComponents(Success(a + b), query, category, kind)
            == SearchComponents(Success(a), query, category, kind) + SearchComponents(Success(b), query, category, kind)
  {
    var term := ToLower(query);
    CollectConcat(a, b, item => Matches(item, term, category, kind), Summarize);
  }

  /** An empty query with no category or type returns every item, in order. */
  lemma EmptyQueryListsEverything(registry: Contents, category: Option<string>, kind: Option<string>)
    requires !Given(category) && !Given(kind)
    ensures |SearchComponents(registry, "", category, kind)| == |ItemsOf(registry)|
    ensures forall i :: 0 <= i < |ItemsOf(registry)| ==> SearchComponents(registry, "", category, kind)[i] == Summarize(ItemsOf(registry)[i])
  {
    var items := ItemsOf(registry);
    var keep := item => Matches(item, ToLower(""), category, kind);
    forall i | 0 <= i < |items|
      ensures keep(items[i])
    {
      assert OccursAt(ToLower(items[i].name), "", 0);
    }
    CollectAll(items, keep, Summarize);
  }

  /** One result in the reply. */
  function FormatSummary(s: Summary): string {
    "**" + s.name + "**\n- Description: " + s.description + "\n- Category: " + s.category + "\n- Type: " + s.kind
    + "\n- Dependencies: " + OrElse(Join(s.dependencies, ", "), "None") + "\n"
  }

  /** The opening of the reply when something is found. */
  function FoundHeading(count: nat): string {
    "Found " + NatToString(count) + CountTail
  }

  const CountTail := " component(s) matching your search:\n\n"

  /** The formatted results, separated by blank lines. */
  function Listing(results: seq<Summary>): string {
    Join(seq(|results|, i requires 0 <= i < |results| => FormatSummary(results[i])), "\n")
  }

  /** The reply when nothing is found. */
  function NothingFound(query: string, category: Option<string>, kind: Option<string>): string {
    "No components found matching \"" + query + "\""
    + (if Given(category) then " in category \"" + category.value + "\"" else "")
    + (if Given(kind) then " of type \"" + kind.value + "\"" else "")
    + ". Try a broader search or different keywords."
  }

  /** The reply for a list of results. */
  function SearchReply(results: seq<Summary>, query: string, category: Option<string>, kind: Option<string>): string {
    if |results| == 0 then NothingFound(query, category, kind)
    else FoundHeading(|results|) + Listing(results)
  }

  /** The tool's `execute`. */
  function Execute(registry: Contents, query: string, category: Option<string>, kind: Option<string>): string {
    SearchReply(SearchComponents(registry, query, category, kind), query, category, kind)
  }

  /** The reply opens with the count exactly when there are results, and with `No components found` exactly when there are none. */
  lemma ReplyReportsCount(results: seq<Summary>, query: string, category: Option<string>, kind: Option<string>)
    ensures |results| > 0 <==> IsPrefix(FoundHeading(|results|), SearchReply(results, query, category, kind))
    ensures |results| == 0 <==> IsPrefix("No components found", SearchReply(results, query, category, kind))
  {
    var reply := SearchReply(results, query, category, kind);
    if |results| > 0 {
      PrefixOfConcat(FoundHeading(|results|), Listing(results));
      assert reply[0] == 'F';
    } else {
      PrefixOfConcat("No components found", NothingFound(query, category, kind)[|"No components found"|..]);
      assert reply[0] == 'N';
    }
  }

  /** The count can be read back from a reply: it is the run of digits after `Found `. */
  lemma CountReadBack(count: nat, rest: string)
    ensures var t := (FoundHeading(count) + rest)[6..];
            t[..DigitRun(t)] == NatToString(count)
  {
    var a := NatToString(count);
    var t := (FoundHeading(count) + rest)[6..];
    assert t == a + (CountTail + rest);
    DigitRunOfNumber(a, CountTail + rest);
  }

  /** Two non-empty result lists with the same reply have the same length: the count in the reply is exact. */
  lemma ReplyDeterminesCount(r1: seq<Summary>, r2: seq<Summary>, query: string, category: Option<string>, kind: Option<string>)
    requires |r1| > 0 && |r2| > 0
    requires SearchReply(r1, query, category, kind) == SearchReply(r2, query, category, kind)
    ensures |r1| == |r2|
  {
    CountReadBack(|r1|, Listing(r1));
    CountReadBack(|r2|, Listing(r2));
    NatToStringInjective(|r1|, |r2|);
  }

  /** The tool reports that nothing was found exactly when no registry item passes the filter. */
  lemma NothingFoundIffNoMatch(registry: Contents, query: string, category: Option<string>, kind: Option<string>)
    ensures IsPrefix("No components found", Execute(registry, query, category, kind))
            <==> forall i :: 0 <= i < |ItemsOf(registry)| ==> !Matches(ItemsOf(registry)[i], ToLower(query), category, kind)
  {
    var term := ToLower(query);
    ReplyReportsCount(SearchComponents(registry, query, category, kind), query, category, kind);
    CollectEmptyIffNoneKept(ItemsOf(registry), item => Matches(item, term, category, kind), Summarize);
  }
}
