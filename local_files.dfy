/**
 * The local documentation folders the migration and installation tools read
 * (src/mastra/tools/shadcn-svelte-migration.ts and
 * src/mastra/tools/shadcn-svelte-installation.ts): `readMarkdownFile`, which
 * turns a failed read into an `Error reading file` text, and the fallback
 * scan that collects every `.md` entry whose text mentions a keyword.
 *
 * A folder is given as its path and the result of reading each file in it;
 * what listing it yields (the names in directory order, or an error) is
 * given beside it.
 */
module LocalFiles {
  import opened Wrappers
  import opened Strings
  import opened Filtering

  const DocsPath := "/home/node/Documents/GitHub/ai-app/src/docs"

  /** What `readFileSync` yields for one file: its text, or the text of the error it throws. */
  datatype FileRead = Text(content: string) | Thrown(message: string)

  /** A directory: its path and the read result of each file in it. */
  datatype Folder = Folder(path: string, files: map<string, FileRead>)

  /** `readFileSync(join(folder.path, name))`; a file that is not there fails with `ENOENT`. */
  function Read(folder: Folder, name: string): (r: FileRead)
    ensures name in folder.files ==> r == folder.files[name]
    ensures name !in folder.files ==> r.Thrown? && Contains(r.message, folder.path)
  {
    if name in folder.files then folder.files[name]
    else
      var opening := "Error: ENOENT: no such file or directory, open '";
      var message := opening + folder.path + "/" + name + "'";
      assert message[|opening|..|opening| + |folder.path|] == folder.path;
      assert OccursAt(message, folder.path, |opening|);
      Thrown(message)
  }

  /** What `readMarkdownFile` returns for a read: the text, or `Error reading file: ` and the error. */
  function Loaded(r: FileRead): (text: string)
    ensures r.Text? ==> text == r.content
    ensures r.Thrown? ==> IsPrefix("Error reading file: ", text)
  {
    match r
    case Text(content) => content
    case Thrown(message) => "Error reading file: " + message
  }

  /** `readMarkdownFile`: never throws; a failed read becomes a text that starts with `Error reading file`. */
  function ReadMarkdownFile(folder: Folder, name: string): (text: string)
    ensures Read(folder, name).Text? ==> text == Read(folder, name).content
    ensures Read(folder, name).Thrown? ==> IsPrefix("Error reading file: ", text)
  {
    Loaded(Read(folder, name))
  }

  /** How the tools tell a read text from a failed read: it must not mention `Error reading file`. */
  predicate Readable(text: string) {
    !Contains(text, "Error reading file")
  }

  /** A failed read is never taken for a file; a file read is taken exactly when its text avoids the marker. */
  lemma ReadableIffClean(folder: Folder, name: string)
    ensures Read(folder, name).Thrown? ==> !Readable(ReadMarkdownFile(folder, name))
    ensures Read(folder, name).Text? ==> (Readable(ReadMarkdownFile(folder, name)) <==> !Contains(Read(folder, name).content, "Error reading file"))
  {
    if Read(folder, name).Thrown? {
      var text := ReadMarkdownFile(folder, name);
      assert IsPrefix("Error reading file", text) by {
        assert text[..|"Error reading file"|] == "Error reading file";
      }
      PrefixContained(text, "Error reading file");
    }
  }

  /** `extname(name) === ".md"` for a directory entry name: at least one character before the `.md` ending. */
  predicate IsMarkdownName(name: string) {
    |name| > 3 && name[|name| - 3..] == ".md"
  }

  /** `name.replace(".md", "")`: the first `.md` is removed. */
  function BaseName(name: string): (base: string)
    ensures IsMarkdownName(name) ==> |base| + 3 == |name|
  {
    if IsMarkdownName(name) then
      assert OccursAt(name, ".md", |name| - 3);
      RemoveFirst(name, ".md")
    else RemoveFirst(name, ".md")
  }

  /** The lowercased text mentions one of the keywords. */
  predicate MentionsAny(text: string, keywords: seq<string>)
    decreases |keywords|
  {
    |keywords| > 0 && (Contains(ToLower(text), keywords[0]) || MentionsAny(text, keywords[1..]))
  }

  /** An entry the scan keeps: a markdown name whose text mentions a keyword. */
  predicate Selected(folder: Folder, name: string, keywords: seq<string>) {
    IsMarkdownName(name) && MentionsAny(ReadMarkdownFile(folder, name), keywords)
  }

  /** The section the scan emits for a kept entry. */
  function Entry(folder: Folder, name: string): string {
    "## " + BaseName(name) + "\n\n" + ReadMarkdownFile(folder, name) + "\n\n---\n"
  }

  /** The sections of the kept entries among `names`, in listing order. */
  function Scan(folder: Folder, names: seq<string>, keywords: seq<string>): seq<string> {
    Collect(names, name => Selected(folder, name, keywords), name => Entry(folder, name))
  }

  /** The fallback scan's loop: the sections of the kept entries, in listing order. */
  method ScanFolder(folder: Folder, names: seq<string>, keywords: seq<string>) returns (results: seq<string>)
    ensures results == Scan(folder, names, keywords)
  {
    results := [];
    for i := 0 to |names|
      invariant results == Scan(folder, names[..i], keywords)
    {
      assert names[..i + 1][..i] == names[..i];
      assert names[..i + 1][i] == names[i];
      var item := names[i];
      if IsMarkdownName(item) {
        var content := ReadMarkdownFile(folder, item);
        if MentionsAny(content, keywords) {
          results := results + ["## " + BaseName(item) + "\n\n" + content + "\n\n---\n"];
        }
      }
    }
    assert names[..|names|] == names;
  }

  /** The end of the fallback: the kept sections joined by newlines, `none` when there are none, or the listing error (`readdirSync` is the only call that throws). */
  function ScanReport(folder: Folder, listing: Result<seq<string>>, keywords: seq<string>, none: string, failed: string): string {
    match listing
    case Failure(message) => failed + message
    case Success(names) =>
      var sections := Scan(folder, names, keywords);
      if |sections| > 0 then Join(sections, "\n") else none
  }

  /** A listing in which no entry is kept reports `none`. */
  lemma ScanReportsNone(folder: Folder, names: seq<string>, keywords: seq<string>, none: string, failed: string)
    requires forall i :: 0 <= i < |names| ==> !Selected(folder, names[i], keywords)
    ensures ScanReport(folder, Success(names), keywords, none, failed) == none
  {
    var keep := name => Selected(folder, name, keywords);
    var render := name => Entry(folder, name);
    assert forall i :: 0 <= i < |names| ==> !keep(names[i]);
    CollectEmptyIffNoneKept(names, keep, render);
  }

  /** The fallback as the tools run it. */
  method ReportScan(folder: Folder, listing: Result<seq<string>>, keywords: seq<string>, none: string, failed: string)
    returns (report: string)
    ensures report == ScanReport(folder, listing, keywords, none, failed)
  {
    match listing {
      case Failure(message) =>
        report := failed + message;
      case Success(names) =>
        var results := ScanFolder(folder, names, keywords);
        report := if |results| > 0 then Join(results, "\n") else none;
    }
  }

  /** What every read-error and scan-error text of the tools starts with. */
  const ErrorReading := "Error reading"

  /** The sentence `execute` appends, pointing at the general documentation for `topic`. */
  function Hint(topic: string): string {
    "\n\nTry searching the general documentation for " + topic + " information."
  }

  /** `execute`'s hint: appended exactly when the guide reports a read error or an empty scan. */
  function WithHint(guide: string, emptyMarker: string, topic: string): string {
    if Contains(guide, ErrorReading) || Contains(guide, emptyMarker) then guide + Hint(topic) else guide
  }

  /** A read or scan error always gets the hint. */
  lemma ErrorGetsHint(rest: string, emptyMarker: string, topic: string)
    ensures WithHint(ErrorReading + rest, emptyMarker, topic)
            == ErrorReading + rest + Hint(topic)
  {
    ContainsOwnPrefix(ErrorReading, rest);
  }

  /** A guide that mentions neither marker is returned as it is; one that does ends with the hint. */
  lemma HintOnlyOnFailure(guide: string, emptyMarker: string, topic: string)
    ensures !Contains(guide, ErrorReading) && !Contains(guide, emptyMarker) ==> WithHint(guide, emptyMarker, topic) == guide
    ensures Contains(guide, ErrorReading) || Contains(guide, emptyMarker) ==>
              IsPrefix(guide, WithHint(guide, emptyMarker, topic)) && |WithHint(guide, emptyMarker, topic)| > |guide|
  {
  }
}
