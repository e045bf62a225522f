/**
 * The `shadcn-svelte-migration` tool (src/mastra/tools/shadcn-svelte-migration.ts):
 * the migration guide read from the local `content/migration` folder, taking
 * the first readable of the version-pair file, the framework file and
 * `index.md`, and otherwise scanning the folder for markdown files that
 * mention migrating or upgrading.
 *
 * `MigrationGuide` specifies `getMigrationGuide`; `GetMigrationGuide` is the
 * early-return chain and scan loop, proved to follow it.
 */
module MigrationTool {
  import opened Wrappers
  import opened Strings
  import opened LocalFiles

  const MigrationPath := DocsPath + "/content/migration"
  const MigrationKeywords := ["migrat", "upgrad"]
  const NoGuidesMarker := "No migration guides found"
  const NoGuides := NoGuidesMarker + ". Please check the documentation structure."
  const ScanFailed := ErrorReading + " migration guides: "

  /** The migration folder holding `files`. */
  function MigrationFolder(files: map<string, FileRead>): Folder {
    Folder(MigrationPath, files)
  }

  /** `v${fromVersion}-to-v${toVersion}.md`. */
  function VersionFile(fromVersion: string, toVersion: string): string {
    "v" + fromVersion + "-to-v" + toVersion + ".md"
  }

  /** The version-pair guide, when both versions are given and their file is readable. */
  function VersionGuide(files: map<string, FileRead>, fromVersion: Option<string>, toVersion: Option<string>): Option<string> {
    if Given(fromVersion) && Given(toVersion) then
      var content := ReadMarkdownFile(MigrationFolder(files), VersionFile(fromVersion.value, toVersion.value));
      if Readable(content) then Some("# Migration Guide: v" + fromVersion.value + " to v" + toVersion.value + "\n\n" + content) else None
    else None
  }

  /** The framework-specific guide, when a framework is named and its file is readable. */
  function FrameworkGuide(files: map<string, FileRead>, framework: Option<string>): Option<string> {
    if Given(framework) then
      var content := ReadMarkdownFile(MigrationFolder(files), framework.value + ".md");
      if Readable(content) then Some("# Migration Guide for " + framework.value + "\n\n" + content) else None
    else None
  }

  /** The general guide, when `index.md` is readable. */
  function GeneralGuide(files: map<string, FileRead>): Option<string> {
    var content := ReadMarkdownFile(MigrationFolder(files), "index.md");
    if Readable(content) then Some("# General Migration Guide\n\n" + content) else None
  }

  /** The early returns of `getMigrationGuide`: the first readable source in priority order, under its own heading. */
  function Chosen(files: map<string, FileRead>, fromVersion: Option<string>, toVersion: Option<string>, framework: Option<string>)
    : Option<string>
  {
    if VersionGuide(files, fromVersion, toVersion).Some? then VersionGuide(files, fromVersion, toVersion)
    else if FrameworkGuide(files, framework).Some? then FrameworkGuide(files, framework)
    else GeneralGuide(files)
  }

  /** `getMigrationGuide`: the chosen source, or else the scan of the folder listing. */
  function MigrationGuide(files: map<string, FileRead>, listing: Result<seq<string>>,
                          fromVersion: Option<string>, toVersion: Option<string>, framework: Option<string>): string
  {
    match Chosen(files, fromVersion, toVersion, framework)
    case Some(guide) => guide
    case None => ScanReport(MigrationFolder(files), listing, MigrationKeywords, NoGuides, ScanFailed)
  }

  /** The version-pair file is consulted only when both versions are given. */
  lemma VersionFileNeedsBothVersions(files: map<string, FileRead>, fromVersion: Option<string>, toVersion: Option<string>, framework: Option<string>)
    requires !Given(fromVersion) || !Given(toVersion)
    ensures Chosen(files, fromVersion, toVersion, framework) == Chosen(files, None, None, framework)
  {
  }

  /** A readable version-pair file decides the guide whatever the framework and the folder listing. */
  lemma VersionFileShadowsRest(files: map<string, FileRead>, listing: Result<seq<string>>, listing': Result<seq<string>>,
                               fromVersion: string, toVersion: string, framework: Option<string>, framework': Option<string>)
    requires fromVersion != "" && toVersion != ""
    requires VersionFile(fromVersion, toVersion) in files && files[VersionFile(fromVersion, toVersion)].Text?
    requires Readable(files[VersionFile(fromVersion, toVersion)].content)
    ensures MigrationGuide(files, listing, Some(fromVersion), Some(toVersion), framework)
            == MigrationGuide(files, listing', Some(fromVersion), Some(toVersion), framework')
            == "# Migration Guide: v" + fromVersion + " to v" + toVersion + "\n\n" + files[VersionFile(fromVersion, toVersion)].content
  {
  }

  /** With no usable version-pair file, a readable framework file decides the guide, whatever `index.md` and the folder listing hold. */
  lemma FrameworkFileShadowsRest(files: map<string, FileRead>, listing: Result<seq<string>>, listing': Result<seq<string>>,
                                 fromVersion: Option<string>, toVersion: Option<string>, framework: string)
    requires VersionGuide(files, fromVersion, toVersion).None?
    requires framework != ""
    requires framework + ".md" in files && files[framework + ".md"].Text? && Readable(files[framework + ".md"].content)
    ensures MigrationGuide(files, listing, fromVersion, toVersion, Some(framework))
            == MigrationGuide(files, listing', fromVersion, toVersion, Some(framework))
            == "# Migration Guide for " + framework + "\n\n" + files[framework + ".md"].content
  {
  }

  /** A readable `index.md` means the folder is never scanned, so its listing does not matter. */
  lemma IndexShadowsScan(files: map<string, FileRead>, listing: Result<seq<string>>, listing': Result<seq<string>>,
                         fromVersion: Option<string>, toVersion: Option<string>, framework: Option<string>)
    requires "index.md" in files && files["index.md"].Text? && Readable(files["index.md"].content)
    ensures Chosen(files, fromVersion, toVersion, framework).Some?
    ensures MigrationGuide(files, listing, fromVersion, toVersion, framework)
            == MigrationGuide(files, listing', fromVersion, toVersion, framework)
  {
  }

  /** The early returns of `getMigrationGuide`, in the source's order: version pair, framework, `index.md`. */
  method ChooseGuide(files: map<string, FileRead>, fromVersion: Option<string>, toVersion: Option<string>, framework: Option<string>)
    returns (chosen: Option<string>)
    ensures chosen == Chosen(files, fromVersion, toVersion, framework)
  {
    var folder := MigrationFolder(files);
    if Given(fromVersion) && Given(toVersion) {
      var content := ReadMarkdownFile(folder, VersionFile(fromVersion.value, toVersion.value));
      if Readable(content) {
        return Some("# Migration Guide: v" + fromVersion.value + " to v" + toVersion.value + "\n\n" + content);
      }
    }
    assert VersionGuide(files, fromVersion, toVersion).None?;
    if Given(framework) {
      var content := ReadMarkdownFile(folder, framework.value + ".md");
      if Readable(content) {
        return Some("# Migration Guide for " + framework.value + "\n\n" + content);
      }
    }
    assert FrameworkGuide(files, framework).None?;
    var generalContent := ReadMarkdownFile(folder, "index.md");
    if Readable(generalContent) {
      return Some("# General Migration Guide\n\n" + generalContent);
    }
    chosen := None;
  }

  /** `getMigrationGuide` as the source runs it: early returns, then the scan loop. */
  method GetMigrationGuide(files: map<string, FileRead>, listing: Result<seq<string>>,
                           fromVersion: Option<string>, toVersion: Option<string>, framework: Option<string>)
    returns (guide: string)
    ensures guide == MigrationGuide(files, listing, fromVersion, toVersion, framework)
  {
    var chosen := ChooseGuide(files, fromVersion, toVersion, framework);
    if chosen.Some? {
      return chosen.value;
    }
    guide := ReportScan(MigrationFolder(files), listing, MigrationKeywords, NoGuides, ScanFailed);
  }

  /** The tool's `execute`. */
  method Execute(files: map<string, FileRead>, listing: Result<seq<string>>,
                 fromVersion: Option<string>, toVersion: Option<string>, framework: Option<string>)
    returns (text: string)
    ensures text == WithHint(MigrationGuide(files, listing, fromVersion, toVersion, framework), NoGuidesMarker, "migration")
  {
    var guide := GetMigrationGuide(files, listing, fromVersion, toVersion, framework);
    text := WithHint(guide, NoGuidesMarker, "migration");
  }

  /** When no source is readable and the scan keeps nothing, the tool reports no guides and adds the hint. */
  lemma EmptyScanGetsHint(files: map<string, FileRead>, names: seq<string>,
                          fromVersion: Option<string>, toVersion: Option<string>, framework: Option<string>)
    requires Chosen(files, fromVersion, toVersion, framework).None?
    requires forall i :: 0 <= i < |names| ==> !Selected(MigrationFolder(files), names[i], MigrationKeywords)
    ensures WithHint(MigrationGuide(files, Success(names), fromVersion, toVersion, framework), NoGuidesMarker, "migration")
            == NoGuides + Hint("migration")
  {
    ScanReportsNone(MigrationFolder(files), names, MigrationKeywords, NoGuides, ScanFailed);
    assert MigrationGuide(files, Success(names), fromVersion, toVersion, framework) == NoGuides;
    ContainsOwnPrefix(NoGuidesMarker, ". Please check the documentation structure.");
  }

  /** When no source is readable and the folder cannot be listed, the error is reported and the hint added. */
  lemma ListingErrorGetsHint(files: map<string, FileRead>, message: string,
                             fromVersion: Option<string>, toVersion: Option<string>, framework: Option<string>)
    requires Chosen(files, fromVersion, toVersion, framework).None?
    ensures WithHint(MigrationGuide(files, Failure(message), fromVersion, toVersion, framework), NoGuidesMarker, "migration")
            == ScanFailed + message + Hint("migration")
  {
    assert MigrationGuide(files, Failure(message), fromVersion, toVersion, framework) == ErrorReading + (" migration guides: " + message);
    ErrorGetsHint(" migration guides: " + message, NoGuidesMarker, "migration");
  }
}
