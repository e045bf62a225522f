/**
 * The component registry (`registry.json` in the documentation folder) as
 * the search and details tools read it: a list of items, each with a name
 * and optional description, category, type, keywords, registry
 * dependencies, files and props.  Reading or parsing the file can fail;
 * the failure is kept as the text of the error raised.
 */
module Registry {
  import opened Wrappers

  /** An entry of an item's `files`: an object whose `path` may be missing. */
  datatype FileRef = FileRef(path: Option<string>)

  /** An entry of an item's `props`. */
  datatype Prop = Prop(name: Option<string>, propType: Option<string>, description: Option<string>)

  /** One registry item; every field but the name may be missing. */
  datatype Item = Item(name: string, description: Option<string>, category: Option<string>, kind: Option<string>,
                       keywords: Option<seq<string>>, registryDependencies: Option<seq<string>>,
                       files: Option<seq<FileRef>>, props: Option<seq<Prop>>)

  /** `JSON.parse(readFileSync(registry.json)).items`, or the error raised on the way. */
  type Contents = Result<seq<Item>>
}
