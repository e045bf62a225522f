/**
 * The `shadcn-svelte-docs-search` tool (src/mastra/tools/shadcn-svelte-docs-search.ts):
 * a recursive walk over the local `content` folder that reports every
 * markdown file whose text, title or name contains the query (ignoring
 * ASCII case), under its title, path, category label and a preview; and
 * `execute`, which retries without the category when the category search
 * reports nothing.
 *
 * The folder is a tree of entries, each file with the result of reading
 * it.  The category filter is modelled twice: as written, where the walk
 * starts with the category as its label, so that every subfolder's label
 * contains it and the filter never removes anything; and corrected, where
 * the walk starts with an empty label, so that only subfolders whose path
 * contains the category are searched.  `Execute` uses the corrected walk.
 */
module DocsSearch {
  import opened Wrappers
  import opened Strings
  import opened LocalFiles

  const ContentPath := DocsPath + "/content"
  const NotFoundMarker := "No documentation found"

  /** A directory entry: a file with what reading it yields, or a folder with its entries in listing order. */
  datatype Entry = File(name: string, read: FileRead) | Dir(name: string, entries: seq<Entry>)

  /** One result: title, file path below the docs folder, category label and preview. */
  datatype Hit = Hit(title: string, file: string, categoryLabel: string, preview: string)

  /** The index of the first line that starts with `# `. */
  function FirstHeading(lines: seq<string>): (r: Option<nat>)
    ensures r.Some? ==> r.value < |lines| && IsPrefix("# ", lines[r.value])
    ensures r.Some? ==> forall j :: 0 <= j < r.value ==> !IsPrefix("# ", lines[j])
    ensures r.None? <==> forall j :: 0 <= j < |lines| ==> !IsPrefix("# ", lines[j])
    decreases |lines|
  {
    if |lines| == 0 then None
    else if IsPrefix("# ", lines[0]) then Some(0)
    else
      match FirstHeading(lines[1..])
      case None => None
      case Some(k) => Some(k + 1)
  }

  /** The title: the first `# ` line without its first `# `, or else the file name without its first `.md`. */
  function Title(content: string, name: string): string {
    var lines := Split(content, '\n');
    var heading := FirstHeading(lines);
    OrElse(if heading.Some? then RemoveFirst(lines[heading.value], "# ") else "", RemoveFirst(name, ".md"))
  }

  /** A first heading with text after `# ` gives the title; otherwise the file name does. */
  lemma TitleFromHeading(content: string, name: string)
    ensures var lines := Split(content, '\n');
            var heading := FirstHeading(lines);
            (heading.Some? && |lines[heading.value]| > 2 ==> Title(content, name) == lines[heading.value][2..])
            && (heading.None? ==> Title(content, name) == RemoveFirst(name, ".md"))
  {
    var lines := Split(content, '\n');
    var heading := FirstHeading(lines);
    if heading.Some? {
      var line := lines[heading.value];
      assert OccursAt(line, "# ", 0);
      assert IndexOf(line, "# ") == Some(0);
      assert RemoveFirst(line, "# ") == line[2..];
    }
  }

  /**
   * The preview: the first 20 lines, cut to 800 characters.  It is a prefix of
   * those lines rejoined, and either all of them or exactly 800 characters.
   */
  function Preview(content: string): (p: string)
    ensures |p| <= 800
    ensures IsPrefix(p, content)
    ensures var lines := Split(content, '\n');
            var head := Join(lines[..if |lines| <= 20 then |lines| else 20], "\n");
            IsPrefix(p, head) && (p == head || |p| == 800)
  {
    var lines := Split(content, '\n');
    var n := if |lines| <= 20 then |lines| else 20;
    var head := Join(lines[..n], "\n");
    JoinSplitPrefix(content, '\n', n);
    head[..if |head| <= 800 then |head| else 800]
  }

  /** A short file, at most 20 lines and 800 characters, is previewed whole. */
  lemma ShortFilePreviewedWhole(content: string)
    requires |Split(content, '\n')| <= 20 && |content| <= 800
    ensures Preview(content) == content
  {
    var lines := Split(content, '\n');
    assert lines[..|lines|] == lines;
    JoinSplit(content, '\n');
  }

  /** The match test, for the already lowercased search term. */
  predicate FileMatches(content: string, title: string, name: string, term: string) {
    Contains(ToLower(content), term) || Contains(ToLower(title), term) || Contains(ToLower(name), term)
  }

  /** The label of a subfolder: the parent's label and the folder name, or the name alone under an empty label. */
  function SubCategory(current: string, name: string): string {
    if current != "" then current + "/" + name else name
  }

  /** The walk enters a subfolder when no category is set or the subfolder's label contains it. */
  predicate Descends(path: string, category: Option<string>) {
    !Given(category) || Contains(path, category.value)
  }

  /** The results for a file: one hit when it is markdown and matches, none otherwise. */
  function FileHits(dirPath: string, name: string, read: FileRead, current: string, term: string): seq<Hit> {
    if IsMarkdownName(name) then
      var content := Loaded(read);
      var title := Title(content, name);
      if FileMatches(content, title, name, term) then
        [Hit(title, RemoveFirst(dirPath + "/" + name, DocsPath), current, Preview(content))]
      else []
    else []
  }

  /** `searchDirectory(dirPath, current)` over the entries of a folder, in listing order. */
  function Hits(dirPath: string, entries: seq<Entry>, current: string, category: Option<string>, term: string): seq<Hit>
    decreases entries
  {
    if |entries| == 0 then []
    else Hits(dirPath, entries[..|entries| - 1], current, category, term) + EntryHits(dirPath, entries[|entries| - 1], current, category, term)
  }

  /** What one entry of a folder contributes. */
  function EntryHits(dirPath: string, entry: Entry, current: string, category: Option<string>, term: string): seq<Hit>
    decreases entry
  {
    match entry
    case File(name, read) => FileHits(dirPath, name, read, current, term)
    case Dir(name, entries) =>
      var newCategory := SubCategory(current, name);
      if Descends(newCategory, category) then Hits(dirPath + "/" + name, entries, newCategory, category, term) else []
  }

  /** The text of one result. */
  function Render(h: Hit): string {
    "## " + h.title + "\n**File:** " + h.file + "\n**Category:** " + h.categoryLabel + "\n\n" + h.preview + "...\n\n---\n"
  }

  function Rendered(hits: seq<Hit>): (texts: seq<string>)
    ensures |texts| == |hits|
    ensures forall i :: 0 <= i < |hits| ==> texts[i] == Render(hits[i])
  {
    seq(|hits|, i requires 0 <= i < |hits| => Render(hits[i]))
  }

  /** Rendering two runs of results renders each in turn. */
  lemma RenderedConcat(a: seq<Hit>, b: seq<Hit>)
    ensures Rendered(a + b) == Rendered(a) + Rendered(b)
  {
    assert forall i :: 0 <= i < |a + b| ==> Rendered(a + b)[i] == (Rendered(a) + Rendered(b))[i];
  }

  /** `searchDirectory` as the source runs it: a loop over the entries that pushes the results of each in turn. */
  method SearchDirectory(dirPath: string, entries: seq<Entry>, current: string, category: Option<string>, term: string)
    returns (results: seq<string>)
    ensures results == Rendered(Hits(dirPath, entries, current, category, term))
    decreases entries
  {
    results := [];
    for i := 0 to |entries|
      invariant results == Rendered(Hits(dirPath, entries[..i], current, category, term))
    {
      assert entries[..i + 1][..i] == entries[..i];
      var found := SearchEntry(dirPath, entries[i], current, category, term);
      RenderedConcat(Hits(dirPath, entries[..i], current, category, term), EntryHits(dirPath, entries[i], current, category, term));
      results := results + found;
    }
    assert entries[..|entries|] == entries;
  }

  /** The body of the loop for one entry: recurse into a folder the category admits, push the result of a matching markdown file. */
  method SearchEntry(dirPath: string, entry: Entry, current: string, category: Option<string>, term: string)
    returns (found: seq<string>)
    ensures found == Rendered(EntryHits(dirPath, entry, current, category, term))
    decreases entry
  {
    found := [];
    match entry {
      case Dir(name, children) =>
        var newCategory := if current != "" then current + "/" + name else name;
        if !Given(category) || Contains(newCategory, category.value) {
          found := SearchDirectory(dirPath + "/" + name, children, newCategory, category, term);
        }
      case File(name, read) =>
        if IsMarkdownName(name) {
          var content := Loaded(read);
          var title := Title(content, name);
          if FileMatches(content, title, name, term) {
            var preview := Preview(content);
            found := [Render(Hit(title, RemoveFirst(dirPath + "/" + name, DocsPath), current, preview))];
          }
        }
    }
  }

  /** The reply of `searchDocumentation` for its results. */
  function Report(results: seq<string>, query: string, category: Option<string>): string {
    if |results| > 0 then Join(results, "\n")
    else NotFoundMarker + " for \"" + query + "\"" + (if Given(category) then " in category \"" + category.value + "\"" else "")
  }

  /** `searchDocumentation(query, category)` as written: the walk starts with the category itself as its label. */
  function SearchTextAsWritten(root: seq<Entry>, query: string, category: Option<string>): string {
    Report(Rendered(Hits(ContentPath, root, category.GetOr(""), category, ToLower(query))), query, category)
  }

  /** `searchDocumentation(query, category)`, corrected: the walk starts with an empty label. */
  function SearchText(root: seq<Entry>, query: string, category: Option<string>): string {
    Report(Rendered(Hits(ContentPath, root, "", category, ToLower(query))), query, category)
  }

  /** The corrected search as a program: the walk, then the reply. */
  method SearchDocumentation(root: seq<Entry>, query: string, category: Option<string>) returns (text: string)
    ensures text == SearchText(root, query, category)
  {
    var results := SearchDirectory(ContentPath, root, "", category, ToLower(query));
    if |results| > 0 {
      text := Join(results, "\n");
    } else {
      text := NotFoundMarker + " for \"" + query + "\"" + (if Given(category) then " in category \"" + category.value + "\"" else "");
    }
  }

  /** The tool's `execute`: when the category search reports nothing, the search without a category is offered if it finds something. */
  function Execute(root: seq<Entry>, query: string, category: Option<string>): string {
    var first := SearchText(root, query, category);
    if Contains(first, NotFoundMarker) then
      var broad := SearchText(root, query, None);
      if !Contains(broad, NotFoundMarker) then
        "No results found in " + OrElse(category.GetOr(""), "specified category") + ", but here are broader results:\n\n" + broad
      else first
    else first
  }

  /** The reply opens with `No documentation found` exactly when there are no results. */
  lemma NotFoundIffNoResults(results: seq<string>, query: string, category: Option<string>)
    requires forall i :: 0 <= i < |results| ==> IsPrefix("## ", results[i])
    ensures IsPrefix(NotFoundMarker, Report(results, query, category)) <==> |results| == 0
  {
    var text := Report(results, query, category);
    if |results| > 0 {
      JoinOpensWithFirst(results, "\n");
      assert text[0] == results[0][0] == '#';
    } else {
      PrefixOfConcat(NotFoundMarker, text[|NotFoundMarker|..]);
    }
  }

  /** Every rendered result opens with `## `. */
  lemma RenderedAreSections(hits: seq<Hit>)
    ensures forall i :: 0 <= i < |hits| ==> IsPrefix("## ", Rendered(hits)[i])
  {
    forall i | 0 <= i < |hits|
      ensures IsPrefix("## ", Rendered(hits)[i])
    {
      PrefixOfConcat("## ", Render(hits[i])[3..]);
    }
  }

  /** The broader results are offered only when the broader search finds something. */
  lemma BroaderOnlyWithResults(root: seq<Entry>, query: string, category: Option<string>)
    requires Execute(root, query, category) != SearchText(root, query, category)
    ensures |Hits(ContentPath, root, "", None, ToLower(query))| > 0
    ensures Contains(SearchText(root, query, category), NotFoundMarker)
  {
    var hits := Hits(ContentPath, root, "", None, ToLower(query));
    RenderedAreSections(hits);
    NotFoundIffNoResults(Rendered(hits), query, None);
    var broad := SearchText(root, query, None);
    if |hits| == 0 {
      PrefixContained(broad, NotFoundMarker);
    }
  }

  /** Without a category the retry never changes the reply. */
  lemma NoCategoryNoRetry(root: seq<Entry>, query: string)
    ensures Execute(root, query, None) == SearchText(root, query, None)
  {
  }

  /** In the corrected walk, every result's label is the starting label or contains the category. */
  lemma {:induction false} LabelsWithinCategory(dirPath: string, entries: seq<Entry>, current: string, category: string, term: string)
    requires category != ""
    ensures forall h | h in Hits(dirPath, entries, current, Some(category), term) :: h.categoryLabel == current || Contains(h.categoryLabel, category)
    decreases entries
  {
    if |entries| > 0 {
      LabelsWithinCategory(dirPath, entries[..|entries| - 1], current, category, term);
      EntryLabelsWithinCategory(dirPath, entries[|entries| - 1], current, category, term);
    }
  }

  lemma {:induction false} EntryLabelsWithinCategory(dirPath: string, entry: Entry, current: string, category: string, term: string)
    requires category != ""
    ensures forall h | h in EntryHits(dirPath, entry, current, Some(category), term) :: h.categoryLabel == current || Contains(h.categoryLabel, category)
    decreases entry
  {
    match entry {
      case File(name, read) =>
      case Dir(name, entries) =>
        var newCategory := SubCategory(current, name);
        if Descends(newCategory, Some(category)) {
          LabelsWithinCategory(dirPath + "/" + name, entries, newCategory, category, term);
        }
    }
  }

  /** The corrected search labels every result with the category, except files lying directly in the content folder. */
  lemma CorrectedSearchStaysInCategory(root: seq<Entry>, query: string, category: string)
    requires category != ""
    ensures forall h | h in Hits(ContentPath, root, "", Some(category), ToLower(query)) :: h.categoryLabel == "" || Contains(h.categoryLabel, category)
  {
    LabelsWithinCategory(ContentPath, root, "", category, ToLower(query));
  }

  /** As written, a walk whose label already contains the category never skips a folder. */
  lemma {:induction false} CategoryNeverPrunes(dirPath: string, entries: seq<Entry>, current: string, category: string, term: string)
    requires Contains(current, category)
    ensures Hits(dirPath, entries, current, Some(category), term) == Hits(dirPath, entries, current, None, term)
    decreases entries
  {
    if |entries| > 0 {
      CategoryNeverPrunes(dirPath, entries[..|entries| - 1], current, category, term);
      EntryNeverPruned(dirPath, entries[|entries| - 1], current, category, term);
    }
  }

  lemma {:induction false} EntryNeverPruned(dirPath: string, entry: Entry, current: string, category: string, term: string)
    requires Contains(current, category)
    ensures EntryHits(dirPath, entry, current, Some(category), term) == EntryHits(dirPath, entry, current, None, term)
    decreases entry
  {
    match entry {
      case File(name, read) =>
      case Dir(name, entries) =>
        var newCategory := SubCategory(current, name);
        if current != "" {
          ContainsInConcat(current, "/" + name, category);
          assert newCategory == current + ("/" + name);
        } else {
          assert OccursAt(newCategory, category, 0);
        }
        CategoryNeverPrunes(dirPath + "/" + name, entries, newCategory, category, term);
    }
  }

  /** Which results a walk without a category finds does not depend on the labels it carries. */
  lemma {:induction false} CountIgnoresLabel(dirPath: string, entries: seq<Entry>, current: string, current': string, term: string)
    ensures |Hits(dirPath, entries, current, None, term)| == |Hits(dirPath, entries, current', None, term)|
    decreases entries
  {
    if |entries| > 0 {
      CountIgnoresLabel(dirPath, entries[..|entries| - 1], current, current', term);
      EntryCountIgnoresLabel(dirPath, entries[|entries| - 1], current, current', term);
    }
  }

  lemma {:induction false} EntryCountIgnoresLabel(dirPath: string, entry: Entry, current: string, current': string, term: string)
    ensures |EntryHits(dirPath, entry, current, None, term)| == |EntryHits(dirPath, entry, current', None, term)|
    decreases entry
  {
    match entry {
      case File(name, read) =>
      case Dir(name, entries) =>
        CountIgnoresLabel(dirPath + "/" + name, entries, SubCategory(current, name), SubCategory(current', name), term);
    }
  }

  /** As written, a category search finds exactly as many results as the search without a category. */
  lemma CategoryIgnoredAsWritten(root: seq<Entry>, query: string, category: string)
    requires category != ""
    ensures |Hits(ContentPath, root, category, Some(category), ToLower(query))| == |Hits(ContentPath, root, "", None, ToLower(query))|
  {
    assert OccursAt(category, category, 0);
    CategoryNeverPrunes(ContentPath, root, category, category, ToLower(query));
    CountIgnoresLabel(ContentPath, root, category, "", ToLower(query));
  }

  /** A folder holding one matching markdown file yields one result when the walk enters it. */
  lemma FoundInEnteredFolder(dirPath: string, folder: string, name: string, text: string, current: string, category: string, term: string)
    requires IsMarkdownName(name) && Contains(ToLower(text), term)
    requires Contains(SubCategory(current, folder), category)
    ensures |Hits(dirPath, [Dir(folder, [File(name, Text(text))])], current, Some(category), term)| == 1
  {
    var file := File(name, Text(text));
    var root := [Dir(folder, [file])];
    var walkLabel := SubCategory(current, folder);
    var subPath := dirPath + "/" + folder;
    var content := Loaded(Text(text));
    assert FileMatches(content, Title(content, name), name, term);
    var hit := FileHits(subPath, name, Text(text), walkLabel, term);
    assert |hit| == 1;
    assert [file][..0] == [];
    assert Hits(subPath, [file], walkLabel, Some(category), term) == hit;
    assert Descends(walkLabel, Some(category));
    assert EntryHits(dirPath, root[0], current, Some(category), term) == hit;
    assert root[..0] == [];
  }

  /** From an empty label, a folder whose name does not contain the category yields nothing. */
  lemma SkippedFolder(dirPath: string, folder: string, entries: seq<Entry>, category: string, term: string)
    requires category != "" && !Contains(folder, category)
    ensures Hits(dirPath, [Dir(folder, entries)], "", Some(category), term) == []
  {
    assert SubCategory("", folder) == folder;
    assert !Descends(folder, Some(category));
    assert EntryHits(dirPath, Dir(folder, entries), "", Some(category), term) == [];
    assert [Dir(folder, entries)][..0] == [];
  }

  /** A file under `installation` is reported by a `migration` search as written, and not by the corrected search. */
  lemma MigrationSearchFindsInstallation()
    ensures var root := [Dir("installation", [File("setup.md", Text("install"))])];
            |Hits(ContentPath, root, "migration", Some("migration"), ToLower("install"))| == 1
            && Hits(ContentPath, root, "", Some("migration"), ToLower("install")) == []
  {
    var term := ToLower("install");
    assert OccursAt(term, term, 0);
    ContainsOwnPrefix("migration", "/" + "installation");
    assert SubCategory("migration", "installation") == "migration" + ("/" + "installation");
    FoundInEnteredFolder(ContentPath, "installation", "setup.md", "install", "migration", "migration", term);
    MissingFirstChar("installation", "migration");
    SkippedFolder(ContentPath, "installation", [File("setup.md", Text("install"))], "migration", term);
  }
}
