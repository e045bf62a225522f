/**
 * The `shadcn-svelte-installation` tool (src/mastra/tools/shadcn-svelte-installation.ts):
 * the installation guide read from the local `content/installation` folder,
 * taking the framework file when it is readable, then `index.md` with an
 * optional package-manager section, and otherwise scanning the folder for
 * markdown files that mention installing.
 *
 * `InstallationGuide` specifies `getInstallationGuide`; `GetInstallationGuide`
 * is the early-return chain and scan loop, proved to follow it.
 */
module InstallationTool {
  import opened Wrappers
  import opened Strings
  import opened LocalFiles

  const InstallationPath := DocsPath + "/content/installation"
  const InstallationKeywords := ["install"]
  const NoGuidesMarker := "No installation guides found"
  const NoGuides := NoGuidesMarker + ". Please check the documentation structure."
  const ScanFailed := ErrorReading + " installation guides: "

  /** The installation folder holding `files`. */
  function InstallationFolder(files: map<string, FileRead>): Folder {
    Folder(InstallationPath, files)
  }

  /** The heading every `getPackageManagerInstructions` text opens with. */
  function UsingHeading(packageManager: string): string {
    "# Using " + packageManager + "\n"
  }

  /** The package managers with a fixed entry in the instruction table. */
  predicate KnownManager(packageManager: string) {
    packageManager == "npm" || packageManager == "yarn" || packageManager == "pnpm" || packageManager == "bun"
  }

  /** How the commands of a known package manager open: a bash block whose first command runs that manager. */
  function CommandOpening(packageManager: string): string {
    "```bash\n" + packageManager + " "
  }

  /** The body of an instruction text: the commands for a known package manager, a note pointing to the package manager's documentation otherwise. */
  function Commands(packageManager: string): string {
    if packageManager == "npm" then
      CommandOpening(packageManager) + "install @shadcn-svelte/ui\n" + packageManager + " run dev\n```"
    else if KnownManager(packageManager) then
      CommandOpening(packageManager) + "add @shadcn-svelte/ui\n" + packageManager + " dev\n```"
    else
      "Please refer to your package manager's documentation for installation commands."
  }

  /** `getPackageManagerInstructions`: fixed commands for npm, yarn, pnpm and bun, a note pointing to the package manager's documentation otherwise. */
  function PackageManagerInstructions(packageManager: string): string {
    UsingHeading(packageManager) + Commands(packageManager)
  }

  /** Every instruction text opens with a heading naming its package manager. */
  lemma InstructionsNameTheManager(packageManager: string)
    ensures IsPrefix(UsingHeading(packageManager), PackageManagerInstructions(packageManager))
  {
    PrefixOfConcat(UsingHeading(packageManager), Commands(packageManager));
  }

  /** Only the four known package managers get commands, and those commands run that manager. */
  lemma CommandsUseTheManager(packageManager: string)
    ensures KnownManager(packageManager) ==> IsPrefix(CommandOpening(packageManager), Commands(packageManager))
    ensures !KnownManager(packageManager) ==> Commands(packageManager) == "Please refer to your package manager's documentation for installation commands."
  {
    var opening := CommandOpening(packageManager);
    if packageManager == "npm" {
      PrefixOfConcat(opening, "install @shadcn-svelte/ui\n");
      PrefixOfConcat(opening + "install @shadcn-svelte/ui\n", packageManager);
      PrefixOfConcat(opening + "install @shadcn-svelte/ui\n" + packageManager, " run dev\n```");
    } else if KnownManager(packageManager) {
      PrefixOfConcat(opening, "add @shadcn-svelte/ui\n");
      PrefixOfConcat(opening + "add @shadcn-svelte/ui\n", packageManager);
      PrefixOfConcat(opening + "add @shadcn-svelte/ui\n" + packageManager, " dev\n```");
    }
  }

  /** The section `getInstallationGuide` appends for a named package manager. */
  function ManagerSection(packageManager: string): string {
    "\n\n## Using " + packageManager + "\n\n" + PackageManagerInstructions(packageManager)
  }

  /** The framework-specific guide, when a framework is named and its file is readable. */
  function FrameworkGuide(files: map<string, FileRead>, framework: Option<string>): Option<string> {
    if Given(framework) then
      var content := ReadMarkdownFile(InstallationFolder(files), framework.value + ".md");
      if Readable(content) then Some("# Installation Guide for " + framework.value + "\n\n" + content) else None
    else None
  }

  /** The general guide from `index.md` when it is readable, with the section of a named package manager. */
  function GeneralGuide(files: map<string, FileRead>, packageManager: Option<string>): Option<string> {
    var generalText := ReadMarkdownFile(InstallationFolder(files), "index.md");
    if Readable(generalText) then
      var content := if Given(packageManager) then generalText + ManagerSection(packageManager.value) else generalText;
      Some("# General Installation Guide\n\n" + content)
    else None
  }

  /** The early returns of `getInstallationGuide`: the framework guide, else the general guide. */
  function Chosen(files: map<string, FileRead>, framework: Option<string>, packageManager: Option<string>): Option<string> {
    if FrameworkGuide(files, framework).Some? then FrameworkGuide(files, framework) else GeneralGuide(files, packageManager)
  }

  /** `getInstallationGuide`: the chosen source, or else the scan of the folder listing. */
  function InstallationGuide(files: map<string, FileRead>, listing: Result<seq<string>>,
                             framework: Option<string>, packageManager: Option<string>): string
  {
    match Chosen(files, framework, packageManager)
    case Some(guide) => guide
    case None => ScanReport(InstallationFolder(files), listing, InstallationKeywords, NoGuides, ScanFailed)
  }

  /** A readable framework file decides the guide, whatever the package manager and the folder listing. */
  lemma FrameworkGuideIgnoresPackageManager(files: map<string, FileRead>, listing: Result<seq<string>>, listing': Result<seq<string>>,
                                            framework: string, packageManager: Option<string>, packageManager': Option<string>)
    requires framework != ""
    requires framework + ".md" in files && files[framework + ".md"].Text? && Readable(files[framework + ".md"].content)
    ensures InstallationGuide(files, listing, Some(framework), packageManager)
            == InstallationGuide(files, listing', Some(framework), packageManager')
            == "# Installation Guide for " + framework + "\n\n" + files[framework + ".md"].content
  {
  }

  /** From `index.md`, naming a package manager only appends its section to the guide. */
  lemma PackageManagerOnlyAppends(files: map<string, FileRead>, listing: Result<seq<string>>,
                                  framework: Option<string>, packageManager: string)
    requires packageManager != ""
    requires FrameworkGuide(files, framework).None? && GeneralGuide(files, None).Some?
    ensures InstallationGuide(files, listing, framework, Some(packageManager))
            == InstallationGuide(files, listing, framework, None) + ManagerSection(packageManager)
  {
    var general := ReadMarkdownFile(InstallationFolder(files), "index.md");
    var heading := "# General Installation Guide\n\n";
    assert GeneralGuide(files, Some(packageManager)) == Some(heading + (general + ManagerSection(packageManager)));
  }

  /** The early returns of `getInstallationGuide`, in the source's order: framework, then `index.md`. */
  method ChooseGuide(files: map<string, FileRead>, framework: Option<string>, packageManager: Option<string>)
    returns (chosen: Option<string>)
    ensures chosen == Chosen(files, framework, packageManager)
  {
    var folder := InstallationFolder(files);
    if Given(framework) {
      var content := ReadMarkdownFile(folder, framework.value + ".md");
      if Readable(content) {
        return Some("# Installation Guide for " + framework.value + "\n\n" + content);
      }
    }
    assert FrameworkGuide(files, framework).None?;
    var generalContent := ReadMarkdownFile(folder, "index.md");
    if Readable(generalContent) {
      var content := generalContent;
      if Given(packageManager) {
        content := content + ManagerSection(packageManager.value);
      }
      return Some("# General Installation Guide\n\n" + content);
    }
    chosen := None;
  }

  /** `getInstallationGuide` as the source runs it: early returns, then the scan loop. */
  method GetInstallationGuide(files: map<string, FileRead>, listing: Result<seq<string>>,
                              framework: Option<string>, packageManager: Option<string>)
    returns (guide: string)
    ensures guide == InstallationGuide(files, listing, framework, packageManager)
  {
    var chosen := ChooseGuide(files, framework, packageManager);
    if chosen.Some? {
      return chosen.value;
    }
    guide := ReportScan(InstallationFolder(files), listing, InstallationKeywords, NoGuides, ScanFailed);
  }

  /** The tool's `execute`. */
  method Execute(files: map<string, FileRead>, listing: Result<seq<string>>,
                 framework: Option<string>, packageManager: Option<string>)
    returns (text: string)
    ensures text == WithHint(InstallationGuide(files, listing, framework, packageManager), NoGuidesMarker, "installation")
  {
    var guide := GetInstallationGuide(files, listing, framework, packageManager);
    text := WithHint(guide, NoGuidesMarker, "installation");
  }

  /** When no source is readable and the scan keeps nothing, the tool reports no guides and adds the hint. */
  lemma EmptyScanGetsHint(files: map<string, FileRead>, names: seq<string>, framework: Option<string>, packageManager: Option<string>)
    requires Chosen(files, framework, packageManager).None?
    requires forall i :: 0 <= i < |names| ==> !Selected(InstallationFolder(files), names[i], InstallationKeywords)
    ensures WithHint(InstallationGuide(files, Success(names), framework, packageManager), NoGuidesMarker, "installation")
            == NoGuides + Hint("installation")
  {
    ScanReportsNone(InstallationFolder(files), names, InstallationKeywords, NoGuides, ScanFailed);
    assert InstallationGuide(files, Success(names), framework, packageManager) == NoGuides;
    ContainsOwnPrefix(NoGuidesMarker, ". Please check the documentation structure.");
  }

  /** When no source is readable and the folder cannot be listed, the listing error is the guide. */
  lemma ListingErrorReported(files: map<string, FileRead>, message: string, framework: Option<string>, packageManager: Option<string>)
    requires Chosen(files, framework, packageManager).None?
    ensures InstallationGuide(files, Failure(message), framework, packageManager) == ErrorReading + (" installation guides: " + message)
  {
  }

  /** When no source is readable and the folder cannot be listed, the error is reported and the hint added. */
  lemma ListingErrorGetsHint(files: map<string, FileRead>, message: string, framework: Option<string>, packageManager: Option<string>)
    requires Chosen(files, framework, packageManager).None?
    ensures WithHint(InstallationGuide(files, Failure(message), framework, packageManager), NoGuidesMarker, "installation")
            == ScanFailed + message + Hint("installation")
  {
    ListingErrorReported(files, message, framework, packageManager);
    ErrorGetsHint(" installation guides: " + message, NoGuidesMarker, "installation");
  }
}
