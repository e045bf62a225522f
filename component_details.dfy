/**
 * The `shadcn-svelte-component-details` tool
 * (src/mastra/tools/shadcn-svelte-component-details.ts): the first registry
 * item whose name equals the requested one exactly, its fields with
 * defaults for missing lists, its documentation from
 * `content/components/<name>.md`, and the page the tool renders from them.
 */
module ComponentDetails {
  import opened Wrappers
  import opened Strings
  import opened Registry
  import opened LocalFiles

  const ComponentsPath := DocsPath + "/content/components"

  /** What `getComponentDetails` returns for a found component. */
  datatype Details = Details(name: string, kind: Option<string>, category: Option<string>, description: Option<string>,
                             dependencies: seq<string>, files: seq<Option<string>>, props: seq<Prop>, documentation: string)

  /** `items.find(item => item.name === name)`, as an index: the first exact, case-sensitive match. */
  function FindItem(items: seq<Item>, name: string): (r: Option<nat>)
    ensures r.Some? ==> r.value < |items| && items[r.value].name == name
    ensures r.Some? ==> forall j :: 0 <= j < r.value ==> items[j].name != name
    ensures r.None? <==> forall j :: 0 <= j < |items| ==> items[j].name != name
    decreases |items|
  {
    if |items| == 0 then None
    else if items[0].name == name then Some(0)
    else
      match FindItem(items[1..], name)
      case None => None
      case Some(k) => Some(k + 1)
  }

  /** The paths of an item's `files`, or none when it has no `files`. */
  function FilePaths(files: Option<seq<FileRef>>): (paths: seq<Option<string>>)
    ensures files.None? ==> paths == []
    ensures files.Some? ==> |paths| == |files.value| && forall i :: 0 <= i < |paths| ==> paths[i] == files.value[i].path
  {
    if files.None? then [] else seq(|files.value|, i requires 0 <= i < |files.value| => files.value[i].path)
  }

  /** The fields of a found item, its lists defaulting to empty, and its documentation text. */
  function DetailsOf(item: Item, documentation: string): Details {
    Details(item.name, item.kind, item.category, item.description,
            item.registryDependencies.GetOr([]), FilePaths(item.files), item.props.GetOr([]),
            OrElse(documentation, "Documentation not found"))
  }

  /** `getComponentDetails(name)`: the details, or the error text it returns. */
  function GetComponentDetails(registry: Contents, docs: map<string, FileRead>, name: string): Result<Details> {
    match registry
    case Failure(error) => Failure("Error reading component info: " + error)
    case Success(items) =>
      match FindItem(items, name)
      case None => Failure("Component \"" + name + "\" not found")
      case Some(i) => Success(DetailsOf(items[i], ReadMarkdownFile(Folder(ComponentsPath, docs), name + ".md")))
  }

  /** Details are found exactly when the registry is readable and names the component; they then describe its first entry. */
  lemma FoundIffNamed(registry: Contents, docs: map<string, FileRead>, name: string)
    ensures GetComponentDetails(registry, docs, name).Success?
            <==> registry.Success? && exists i :: 0 <= i < |registry.value| && registry.value[i].name == name
    ensures GetComponentDetails(registry, docs, name).Success? ==>
              var d := GetComponentDetails(registry, docs, name).value;
              d.name == name
              && exists i :: 0 <= i < |registry.value| && registry.value[i].name == name
                   && (forall j :: 0 <= j < i ==> registry.value[j].name != name)
                   && d.kind == registry.value[i].kind && d.dependencies == registry.value[i].registryDependencies.GetOr([])
  {
    if registry.Success? {
      var r := FindItem(registry.value, name);
      if r.Some? {
        assert registry.value[r.value].name == name;
      }
    }
  }

  /** `Documentation not found` stands only for an empty file: a failed read yields its error text instead. */
  lemma DocumentationFallback(registry: Contents, docs: map<string, FileRead>, name: string)
    requires GetComponentDetails(registry, docs, name).Success?
    ensures var d := GetComponentDetails(registry, docs, name).value;
            d.documentation != ""
            && (name + ".md" in docs && docs[name + ".md"] == Text("") ==> d.documentation == "Documentation not found")
            && (name + ".md" !in docs ==> IsPrefix("Error reading file: ", d.documentation))
  {
  }

  /** One line of the props section. */
  function PropLine(p: Prop): string {
    "- **" + Shown(p.name) + "**: " + Shown(p.propType) + " - " + OrElse(p.description.GetOr(""), "No description")
  }

  /** The props section: one line per prop, or `No props documented`. */
  function PropsInfo(props: seq<Prop>): string {
    if |props| > 0 then Join(seq(|props|, i requires 0 <= i < |props| => PropLine(props[i])), "\n")
    else "No props documented"
  }

  /** `No props documented` is shown exactly when there are no props. */
  lemma NoPropsIffEmpty(props: seq<Prop>)
    ensures PropsInfo(props) == "No props documented" <==> |props| == 0
  {
    if |props| > 0 {
      var lines := seq(|props|, i requires 0 <= i < |props| => PropLine(props[i]));
      assert PropsInfo(props)[0] == '-' by {
        if |props| == 1 {
          assert PropsInfo(props) == PropLine(props[0]);
        } else {
          assert PropsInfo(props) == PropLine(props[0]) + "\n" + Join(lines[1..], "\n");
        }
      }
    }
  }

  /** The heading the page opens with. */
  function PageHeading(name: string): string {
    "# " + name + " Component"
  }

  /** The rest of the page after its heading. */
  function PageBody(d: Details): string {
    "\n\n**Type:** " + Shown(d.kind) + "\n**Category:** " + Shown(d.category) + "\n**Description:** " + Shown(d.description)
    + "\n\n## Dependencies\n" + OrElse(Join(d.dependencies, ", "), "None")
    + "\n\n## Files\n" + Join(seq(|d.files|, i requires 0 <= i < |d.files| => "- " + Shown(d.files[i])), "\n")
    + "\n\n## Props\n" + PropsInfo(d.props)
    + "\n\n## Documentation\n" + d.documentation + "\n    "
  }

  /** The page: the template literal, trimmed. */
  function Page(d: Details): string {
    Trim("\n" + PageHeading(d.name) + PageBody(d))
  }

  /** The reply when the component is not found or the registry cannot be read. */
  function NotFoundReply(name: string): string {
    "Component \"" + name + "\" not found. Use the component search tool to find available components."
  }

  /** The tool's `execute`: every error gives the same not-found reply. */
  function Execute(registry: Contents, docs: map<string, FileRead>, name: string): string {
    match GetComponentDetails(registry, docs, name)
    case Failure(_) => NotFoundReply(name)
    case Success(d) => Page(d)
  }

  /** The page opens with the component's heading, whatever the trimming removes at either end. */
  lemma PageOpensWithHeading(d: Details)
    ensures IsPrefix(PageHeading(d.name), Page(d))
  {
    var heading := PageHeading(d.name);
    assert heading[0] == '#' && heading[|heading| - 1] == 't';
    TrimKeepsPrefix('\n', heading, PageBody(d));
  }

  /** The tool shows a page exactly when the details are found, and the not-found reply otherwise. */
  lemma PageIffFound(registry: Contents, docs: map<string, FileRead>, name: string)
    ensures GetComponentDetails(registry, docs, name).Success? <==> Execute(registry, docs, name) != NotFoundReply(name)
    ensures GetComponentDetails(registry, docs, name).Success? ==> IsPrefix(PageHeading(name), Execute(registry, docs, name))
  {
    var r := GetComponentDetails(registry, docs, name);
    if r.Success? {
      FoundIffNamed(registry, docs, name);
      var page := Page(r.value);
      assert Execute(registry, docs, name) == page;
      PageOpensWithHeading(r.value);
      assert page[0] == PageHeading(name)[0] == '#';
      assert NotFoundReply(name)[0] == 'C';
    }
  }
}
