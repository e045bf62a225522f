/**
 * The `shadcn-svelte-list` tool (src/mastra/tools/shadcn-svelte-list.ts):
 * the listing of discovered components, three to a row, and of the
 * discovered documentation pages in four fixed subsections, chosen by the
 * `type` argument, followed by a usage footer.
 *
 * What the discovery service returns is given as a value: the component
 * names in order and the four lists of documentation pages, or the text of
 * the error it raised.
 */
module ListTool {
  import opened Wrappers
  import opened Strings

  /** What `getAllContent()` yields: the component names and the documentation pages by subsection. */
  datatype Discovered = Discovered(components: seq<string>, installation: seq<string>, darkMode: seq<string>,
                                   migration: seq<string>, general: seq<string>)

  /** The separator between names in a row, as the source spells it (`Â·`). */
  const RowSeparator := " \U{00C2}\U{00B7} "

  const Columns := 3

  /** The rows of the component listing: consecutive runs of three names, the last one possibly shorter. */
  function Chunks(names: seq<string>): seq<seq<string>>
    decreases |names|
  {
    if |names| == 0 then []
    else
      var k := if |names| < Columns then |names| else Columns;
      [names[..k]] + Chunks(names[k..])
  }

  /** The rows laid end to end. */
  function Flatten(rows: seq<seq<string>>): seq<string>
    decreases |rows|
  {
    if |rows| == 0 then [] else rows[0] + Flatten(rows[1..])
  }

  /** The rows give back every name exactly once, in order; each holds one to three names, all but the last exactly three; there are ceil(n/3) of them. */
  lemma {:induction false} ChunksPartition(names: seq<string>)
    ensures Flatten(Chunks(names)) == names
    ensures forall r :: 0 <= r < |Chunks(names)| ==> 1 <= |Chunks(names)[r]| <= Columns
    ensures forall r :: 0 <= r < |Chunks(names)| - 1 ==> |Chunks(names)[r]| == Columns
    ensures |Chunks(names)| == (|names| + Columns - 1) / Columns
    decreases |names|
  {
    if |names| > 0 {
      var k := if |names| < Columns then |names| else Columns;
      ChunksPartition(names[k..]);
      assert names[..k] + names[k..] == names;
      assert Chunks(names)[1..] == Chunks(names[k..]);
    }
  }

  /** Chunking a run whose length is a multiple of three, then the rest, chunks the whole. */
  lemma {:induction false} ChunksConcat(a: seq<string>, b: seq<string>)
    requires |a| % Columns == 0
    ensures Chunks(a + b) == Chunks(a) + Chunks(b)
    decreases |a|
  {
    if |a| > 0 {
      assert (a + b)[..Columns] == a[..Columns];
      assert (a + b)[Columns..] == a[Columns..] + b;
      ChunksConcat(a[Columns..], b);
    } else {
      assert a + b == b;
    }
  }

  /** The names of one row, each in backticks. */
  function Quoted(row: seq<string>): seq<string> {
    seq(|row|, i requires 0 <= i < |row| => "`" + row[i] + "`")
  }

  /** The line for one row: the quoted names separated by `RowSeparator`. */
  function RowLine(row: seq<string>): string {
    Join(Quoted(row), RowSeparator) + "\n"
  }

  /** The lines of the rows, in order. */
  function RowsText(rows: seq<seq<string>>): string
    decreases |rows|
  {
    if |rows| == 0 then "" else RowsText(rows[..|rows| - 1]) + RowLine(rows[|rows| - 1])
  }

  /** The bullet list of one documentation subsection. */
  function Bullets(docs: seq<string>): string
    decreases |docs|
  {
    if |docs| == 0 then "" else Bullets(docs[..|docs| - 1]) + "- `" + docs[|docs| - 1] + "`\n"
  }

  /** The components section: heading, count, the rows of three, and a blank line. */
  function ComponentsSection(names: seq<string>): string {
    "## Components\n\n" + "Found " + NatToString(|names|) + " components:\n\n" + RowsText(Chunks(names)) + "\n"
  }

  /** One documentation subsection: its title line, a bullet per page, a blank line. */
  function Subsection(title: string, docs: seq<string>): string {
    title + Bullets(docs) + "\n"
  }

  /** The four documentation subsections, in the order the source writes them. */
  function Parts(d: Discovered): seq<(string, seq<string>)> {
    [("### Installation\n", d.installation), ("### Dark Mode\n", d.darkMode),
     ("### Migration\n", d.migration), ("### General\n", d.general)]
  }

  /** The subsections laid end to end. */
  function PartsText(parts: seq<(string, seq<string>)>): string
    decreases |parts|
  {
    if |parts| == 0 then "" else PartsText(parts[..|parts| - 1]) + Subsection(parts[|parts| - 1].0, parts[|parts| - 1].1)
  }

  const DocsHeading := "## Documentation\n\n"

  /** One more subsection adds exactly its text. */
  lemma PartsTextStep(parts: seq<(string, seq<string>)>, j: nat)
    requires j < |parts|
    ensures PartsText(parts[..j + 1]) == PartsText(parts[..j]) + Subsection(parts[j].0, parts[j].1)
  {
    assert parts[..j + 1][..j] == parts[..j];
  }

  /** The documentation section: its heading and the four subsections. */
  function DocsSection(d: Discovered): string {
    DocsHeading + PartsText(Parts(d))
  }

  const Heading := "# shadcn-svelte Resources\n\n"

  /** The four lines of the usage footer. */
  const UsageLine := "---\n\n**Usage:** Use the `get` tool with `name` and `type` to retrieve detailed information.\n\n"
  const ExamplesLine := "**Examples:**\n"
  const ButtonExample := "- Get button component: `{ name: 'button', type: 'component' }`\n"
  const InstallExample := "- Get installation docs: `{ name: 'sveltekit', type: 'doc' }`\n"

  const Footer := UsageLine + ExamplesLine + ButtonExample + InstallExample

  /** Whether `type` asks for the components and for the documentation; a missing `type` means `all`. */
  predicate ListsComponents(kind: Option<string>) {
    kind.GetOr("all") == "components" || kind.GetOr("all") == "all"
  }

  predicate ListsDocs(kind: Option<string>) {
    kind.GetOr("all") == "docs" || kind.GetOr("all") == "all"
  }

  /** The reply of `execute`. */
  function ListText(content: Result<Discovered>, kind: Option<string>): string {
    match content
    case Failure(error) => "Error listing resources: " + error
    case Success(d) =>
      Heading
      + (if ListsComponents(kind) then ComponentsSection(d.components) else "")
      + (if ListsDocs(kind) then DocsSection(d) else "")
      + Footer
  }

  /** A missing `type` lists everything. */
  lemma DefaultListsAll(d: Discovered)
    ensures ListText(Success(d), None) == ListText(Success(d), Some("all"))
  {
  }

  /** `components` lists the component section alone. */
  lemma ComponentsListsComponents(d: Discovered)
    ensures ListText(Success(d), Some("components")) == Heading + ComponentsSection(d.components) + Footer
  {
    AppendEmpty(Heading + ComponentsSection(d.components), Footer);
  }

  /** `docs` lists the documentation section alone. */
  lemma DocsListsDocs(d: Discovered)
    ensures ListText(Success(d), Some("docs")) == Heading + DocsSection(d) + Footer
  {
    assert ListText(Success(d), Some("docs")) == Heading + "" + DocsSection(d) + Footer;
    AppendEmptyBetween(Heading, DocsSection(d), Footer);
  }

  /** `all` lists both sections, components first. */
  lemma AllListsSections(d: Discovered)
    ensures ListText(Success(d), Some("all")) == Heading + ComponentsSection(d.components) + DocsSection(d) + Footer
  {
  }

  /** The full listing is the component listing with the documentation section inserted before the footer, and a missing `type` lists everything. */
  lemma AllListsBoth(d: Discovered)
    ensures ListText(Success(d), None) == ListText(Success(d), Some("all"))
    ensures ListText(Success(d), Some("components")) == Heading + ComponentsSection(d.components) + Footer
    ensures ListText(Success(d), Some("docs")) == Heading + DocsSection(d) + Footer
    ensures ListText(Success(d), Some("all")) == Heading + ComponentsSection(d.components) + DocsSection(d) + Footer
  {
    DefaultListsAll(d);
    ComponentsListsComponents(d);
    DocsListsDocs(d);
    AllListsSections(d);
  }

  /** Any other `type` value leaves only the heading and the footer. */
  lemma OtherKindListsNothing(d: Discovered, kind: string)
    requires kind != "components" && kind != "docs" && kind != "all"
    ensures ListText(Success(d), Some(kind)) == Heading + Footer
  {
  }

  /** The text of the rows is the text of the first rows followed by the text of the others. */
  lemma {:induction false} RowsTextConcat(a: seq<seq<string>>, b: seq<seq<string>>)
    ensures RowsText(a + b) == RowsText(a) + RowsText(b)
    decreases |b|
  {
    if |b| == 0 {
      assert a + b == a;
    } else {
      assert (a + b)[..|a + b| - 1] == a + b[..|b| - 1];
      RowsTextConcat(a, b[..|b| - 1]);
    }
  }

  /** One more row: the rows of the first `end` names are those of the first `i` names and the row from `i` to `end`. */
  lemma RowsTextExtend(names: seq<string>, i: nat, end: nat)
    requires i % Columns == 0 && i < end <= |names| && end - i <= Columns
    ensures RowsText(Chunks(names[..end])) == RowsText(Chunks(names[..i])) + RowLine(names[i..end])
  {
    var row := names[i..end];
    assert names[..end] == names[..i] + row;
    ChunksConcat(names[..i], row);
    assert Chunks(row) == [row] by {
      assert row[..|row|] == row && row[|row|..] == [];
    }
    RowsTextConcat(Chunks(names[..i]), [row]);
    assert RowsText([row]) == RowLine(row) by {
      assert [row][..0] == [];
    }
  }

  /** The row loop: `slice(i, i + 3)` for `i` = 0, 3, 6, ... while `i` is below the count. */
  method AppendRows(text: string, names: seq<string>) returns (out: string)
    ensures out == text + RowsText(Chunks(names))
  {
    out := text;
    var i := 0;
    while i < |names|
      invariant 0 <= i && i % Columns == 0
      invariant out == text + RowsText(Chunks(names[..if i < |names| then i else |names|]))
      decreases |names| - i
    {
      var end := if i + Columns <= |names| then i + Columns else |names|;
      var row := names[i..end];
      var line := Join(Quoted(row), RowSeparator);
      RowsTextExtend(names, i, end);
      AppendTwo(text, RowsText(Chunks(names[..i])), RowLine(row));
      out := out + (line + "\n");
      i := i + Columns;
    }
    assert names[..|names|] == names;
  }

  /** One documentation loop: a bullet per page, in order. */
  method AppendBullets(text: string, docs: seq<string>) returns (out: string)
    ensures out == text + Bullets(docs)
  {
    out := text;
    for j := 0 to |docs|
      invariant out == text + Bullets(docs[..j])
    {
      assert docs[..j + 1][..j] == docs[..j];
      out := out + "- `" + docs[j] + "`\n";
    }
    assert docs[..|docs|] == docs;
  }

  /** The components part of `execute`. */
  method AppendComponents(text: string, names: seq<string>) returns (out: string)
    ensures out == text + ComponentsSection(names)
  {
    out := text + "## Components\n\n";
    out := out + "Found " + NatToString(|names|) + " components:\n\n";
    out := AppendRows(out, names);
    out := out + "\n";
  }

  /** One subsection of `execute`: the title, the bullet loop, the blank line. */
  method AppendSubsection(text: string, title: string, docs: seq<string>) returns (out: string)
    ensures out == text + Subsection(title, docs)
  {
    out := text + title;
    out := AppendBullets(out, docs);
    out := out + "\n";
  }

  /** The documentation part of `execute`: the four subsections in their fixed order. */
  method AppendDocs(text: string, d: Discovered) returns (out: string)
    ensures out == text + DocsSection(d)
  {
    out := text + DocsHeading;
    ghost var start := out;
    var parts := Parts(d);
    for j := 0 to |parts|
      invariant out == start + PartsText(parts[..j])
    {
      PartsTextStep(parts, j);
      AppendTwo(start, PartsText(parts[..j]), Subsection(parts[j].0, parts[j].1));
      out := AppendSubsection(out, parts[j].0, parts[j].1);
    }
    assert parts[..|parts|] == parts;
    AppendTwo(text, DocsHeading, PartsText(parts));
  }

  /** The usage footer, appended line by line. */
  method AppendFooter(text: string) returns (out: string)
    ensures out == text + Footer
  {
    out := text + UsageLine;
    out := out + ExamplesLine;
    out := out + ButtonExample;
    out := out + InstallExample;
    AppendFour(text, UsageLine, ExamplesLine, ButtonExample, InstallExample);
  }

  /** The tool's `execute`, building the reply step by step as the source does. */
  method Execute(content: Result<Discovered>, kind: Option<string>) returns (result: string)
    ensures result == ListText(content, kind)
  {
    var k := kind.GetOr("all");
    match content {
      case Failure(error) =>
        result := "Error listing resources: " + error;
      case Success(d) =>
        result := "# shadcn-svelte Resources\n\n";
        if k == "components" || k == "all" {
          result := AppendComponents(result, d.components);
        }
        if k == "docs" || k == "all" {
          result := AppendDocs(result, d);
        }
        result := AppendFooter(result);
    }
  }
}
