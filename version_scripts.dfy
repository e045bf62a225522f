/**
 * The three version scripts around src/mastra/mcp-server.ts and package.json:
 * scripts/update-version-in-code.js writes the package version into the
 * first `version: "...",` line, scripts/check-versions.js compares the first
 * `version: "..."` value with the package version, and scripts/sync-versions.js
 * sets both from the latest git tag and then runs the check.
 *
 * The two files are fields of a `Workspace` (`None` for a file that does not
 * exist); package.json is its parsed object, a map from field names to
 * string values. The tag is the text `git tag --sort=-version:refname | head -1`
 * printed. An exit status of 1 is an outcome, as is every message the
 * scripts print.
 */
module VersionScripts {
  import opened Wrappers
  import opened Strings
  import opened VersionPattern

  /** The parsed package.json. */
  type Package = map<string, string>

  /** `pkg.version`: `None` when the field is missing. */
  function VersionOf(pkg: Package): Option<string> {
    if "version" in pkg then Some(pkg["version"]) else None
  }

  /** What a script run ends with. */
  datatype Outcome =
    | NoPackageJson                    // `package.json not found`, exit 1
    | NoTargetFile                     // `target file not found`, exit 1
    | NoChange                         // `No change needed`, exit 0
    | Written(code: string)            // `Updated ... to version ...`, exit 0
    | VersionNotFound                  // `Version not found in ...`, exit 1
    | Mismatch(packageVersion: Option<string>, codeVersion: string)   // `Version mismatch`, exit 1
    | Matched(version: string)         // `Versions match`, exit 0

  /** The exit code a script ends with for an outcome. */
  function ExitCode(o: Outcome): nat {
    match o
    case NoChange => 0
    case Written(_) => 0
    case Matched(_) => 0
    case _ => 1
  }

  /** scripts/update-version-in-code.js on the two files. */
  function UpdateResult(pkg: Option<Package>, code: Option<string>): (o: Outcome)
    ensures o.NoPackageJson? <==> pkg.None?
    ensures o.NoTargetFile? <==> pkg.Some? && code.None?
    ensures o.Written? ==> o.code != code.value && o.code == Update(code.value, Shown(VersionOf(pkg.value)))
    ensures pkg.Some? && code.Some? ==> (o == NoChange <==> Update(code.value, Shown(VersionOf(pkg.value))) == code.value)
    ensures pkg.Some? && code.Some? && Update(code.value, Shown(VersionOf(pkg.value))) != code.value ==>
              o == Written(Update(code.value, Shown(VersionOf(pkg.value))))
  {
    if pkg.None? then NoPackageJson
    else if code.None? then NoTargetFile
    else
      var updated := Update(code.value, Shown(VersionOf(pkg.value)));
      if updated == code.value then NoChange else Written(updated)
  }

  /** scripts/check-versions.js on the two files. */
  function CheckResult(pkg: Option<Package>, code: Option<string>): (o: Outcome)
    ensures o.NoPackageJson? <==> pkg.None?
    ensures o.NoTargetFile? <==> pkg.Some? && code.None?
    ensures pkg.Some? && code.Some? ==>
              (o.Matched? <==> Extract(code.value).Some? && VersionOf(pkg.value) == Extract(code.value))
    ensures o.Matched? ==> VersionOf(pkg.value) == Some(o.version)
    ensures pkg.Some? && code.Some? ==> (o == VersionNotFound <==> Extract(code.value).None?)
  {
    if pkg.None? then NoPackageJson
    else if code.None? then NoTargetFile
    else
      match Extract(code.value)
      case None => VersionNotFound
      case Some(codeVersion) =>
        if VersionOf(pkg.value) != Some(codeVersion) then Mismatch(VersionOf(pkg.value), codeVersion)
        else Matched(codeVersion)
  }

  /** `latestTag.startsWith("v") ? latestTag.slice(1) : latestTag`. */
  function StripLeadingV(tag: string): (version: string)
    ensures |tag| > 0 && tag[0] == 'v' ==> "v" + version == tag
    ensures !(|tag| > 0 && tag[0] == 'v') ==> version == tag
  {
    if |tag| > 0 && tag[0] == 'v' then tag[1..] else tag
  }

  /** The version sync-versions.js takes from the printed tag. */
  function TagVersion(tagOutput: string): string {
    StripLeadingV(Trim(tagOutput))
  }

  /** `pkg.version = version`: only that field changes. */
  function SetVersion(pkg: Package, version: string): (r: Package)
    ensures VersionOf(r) == Some(version)
    ensures forall k :: k != "version" ==> (k in r <==> k in pkg) && (k in pkg ==> r[k] == pkg[k])
  {
    pkg["version" := version]
  }

  /** What sync-versions.js ends with: a failed read throws (package.json first, before anything is written), else the check's outcome. */
  datatype SyncOutcome = PackageUnreadable | TargetUnreadable(version: string) | Synced(version: string, check: Outcome)

  /** scripts/sync-versions.js on the two files. */
  function SyncResult(pkg: Option<Package>, code: Option<string>, tagOutput: string): SyncOutcome {
    var version := TagVersion(tagOutput);
    if pkg.None? then PackageUnreadable
    else if code.None? then TargetUnreadable(version)
    else Synced(version, CheckResult(Some(SetVersion(pkg.value, version)), Some(Update(code.value, version))))
  }

  /** A version a `version:` line can carry and give back: non-empty, with no quote and no dollar sign. */
  predicate Writable(v: string) {
    |v| > 0 && '"' !in v && '$' !in v
  }

  /** The line the check reads is the line the update writes: the first `version:` match also has the comma. */
  predicate CheckReadsUpdatedLine(code: string) {
    FirstMatch(code, true).Some? && FirstMatch(code, false) == FirstMatch(code, true)
  }

  /**
   * Running the update a second time with the same package takes the
   * no-change branch, for a version that does not open with a comma.
   */
  lemma SecondRunNoChange(pkg: Package, code: string)
    requires Writable(Shown(VersionOf(pkg))) && Shown(VersionOf(pkg))[0] != ','
    requires UpdateResult(Some(pkg), Some(code)).Written?
    ensures UpdateResult(Some(pkg), Some(UpdateResult(Some(pkg), Some(code)).code)) == NoChange
  {
    UpdateIdempotent(code, Shown(VersionOf(pkg)));
  }

  /** After an update, the check passes whenever it reads the rewritten line and the package has a writable version. */
  lemma UpdateThenCheckPasses(pkg: Package, code: string)
    requires VersionOf(pkg).Some? && Writable(VersionOf(pkg).value) && CheckReadsUpdatedLine(code)
    ensures UpdateResult(Some(pkg), Some(code)).Written? ==>
              CheckResult(Some(pkg), Some(UpdateResult(Some(pkg), Some(code)).code)) == Matched(VersionOf(pkg).value)
    ensures UpdateResult(Some(pkg), Some(code)) == NoChange ==> CheckResult(Some(pkg), Some(code)) == Matched(VersionOf(pkg).value)
  {
    UpdateThenExtract(code, VersionOf(pkg).value);
  }

  /** A sync whose tag gives a writable version, on a server file whose checked line is the updated one, ends with a passing check. */
  lemma SyncThenCheckPasses(pkg: Package, code: string, tagOutput: string)
    requires Writable(TagVersion(tagOutput)) && CheckReadsUpdatedLine(code)
    ensures SyncResult(Some(pkg), Some(code), tagOutput) == Synced(TagVersion(tagOutput), Matched(TagVersion(tagOutput)))
  {
    UpdateThenExtract(code, TagVersion(tagOutput));
  }

  /**
   * The text `version: "c" version: "x",` for one-character values `c` and
   * `x`: a comma-less line the check reads, then the comma-terminated line the
   * update rewrites.
   */
  predicate TwoLines(code: string) {
    |code| == 26 && KeyAt(code, 0) && code[8] == ' ' && code[9] == '"' && code[10] != '"' && code[11] == '"'
    && code[12] == ' ' && KeyAt(code, 13) && code[21] == ' ' && code[22] == '"' && code[23] != '"'
    && code[24] == '"' && code[25] == ','
  }

  /**
   * Without `CheckReadsUpdatedLine` the check can fail right after a sync:
   * on such a text it still reads the first, untouched line.
   */
  lemma SyncCheckCanReadAnotherLine(pkg: Package, code: string, tagOutput: string)
    requires TwoLines(code) && Writable(TagVersion(tagOutput)) && TagVersion(tagOutput) != [code[10]]
    ensures SyncResult(Some(pkg), Some(code), tagOutput)
            == Synced(TagVersion(tagOutput), Mismatch(Some(TagVersion(tagOutput)), [code[10]]))
  {
    var v := TagVersion(tagOutput);
    FirstUpdatedLine(code);
    UpdateSplices(code, v, 13);
    FirstCheckedLine(code, Spliced(code, 13, 26, v), v);
  }

  /** The first comma-terminated match of such a text is its second line. */
  lemma FirstUpdatedLine(code: string)
    requires TwoLines(code)
    ensures FirstMatch(code, true) == Some(13) && MatchAt(code, 13, true) == Some(Span(22, 24))
  {
    RunEndsAt(code, 21, IsJsSpace, 22);
    RunEndsAt(code, 23, NotQuote, 24);
    assert MatchAt(code, 13, true) == Some(Span(22, 24));
    RunEndsAt(code, 8, IsJsSpace, 9);
    RunEndsAt(code, 10, NotQuote, 11);
    assert MatchAt(code, 0, true).None?;
    forall q | 0 < q < 13
      ensures MatchAt(code, q, true).None?
    {
      assert !KeyAt(code, q);
    }
    FirstMatchAt(code, 13, true);
  }

  /** After the second line is replaced, the check still reads the first line. */
  lemma FirstCheckedLine(code: string, updated: string, v: string)
    requires TwoLines(code) && |v| > 0 && updated == Spliced(code, 13, 26, v)
    ensures Extract(updated) == Some([code[10]])
  {
    SplicedLayout(code, 13, 26, v);
    RunEndsAt(updated, 8, IsJsSpace, 9);
    RunEndsAt(updated, 10, NotQuote, 11);
    assert MatchAt(updated, 0, false) == Some(Span(9, 11));
    FirstMatchAt(updated, 0, false);
    ExtractFirst(updated, 0);
    assert updated[10..11] == [code[10]];
  }

  /** The two files the scripts read and write. */
  class Workspace {
    var packageJson: Option<Package>
    var serverCode: Option<string>

    constructor(packageJson: Option<Package>, serverCode: Option<string>)
      ensures this.packageJson == packageJson && this.serverCode == serverCode
    {
      this.packageJson := packageJson;
      this.serverCode := serverCode;
    }

    /** scripts/update-version-in-code.js: the server file is written only when the text changes. */
    method UpdateVersionInCode() returns (outcome: Outcome)
      modifies this
      ensures outcome == UpdateResult(old(packageJson), old(serverCode))
      ensures packageJson == old(packageJson)
      ensures serverCode == (if outcome.Written? then Some(outcome.code) else old(serverCode))
    {
      if packageJson.None? {
        return NoPackageJson;
      }
      if serverCode.None? {
        return NoTargetFile;
      }
      var version := Shown(VersionOf(packageJson.value));
      var code := serverCode.value;
      var newCode := Update(code, version);
      if newCode == code {
        return NoChange;
      }
      serverCode := Some(newCode);
      outcome := Written(newCode);
    }

    /** scripts/check-versions.js: reads both files and changes neither. */
    method CheckVersions() returns (outcome: Outcome)
      ensures outcome == CheckResult(packageJson, serverCode)
    {
      if packageJson.None? {
        return NoPackageJson;
      }
      if serverCode.None? {
        return NoTargetFile;
      }
      var packageVersion := VersionOf(packageJson.value);
      var found := Extract(serverCode.value);
      if found.None? {
        return VersionNotFound;
      }
      var codeVersion := found.value;
      if packageVersion != Some(codeVersion) {
        return Mismatch(packageVersion, codeVersion);
      }
      outcome := Matched(codeVersion);
    }

    /** scripts/sync-versions.js: package.json is written before the server file is read, then the check runs. */
    method SyncVersions(tagOutput: string) returns (outcome: SyncOutcome)
      modifies this
      ensures outcome == SyncResult(old(packageJson), old(serverCode), tagOutput)
      ensures packageJson == if old(packageJson).Some? then Some(SetVersion(old(packageJson).value, TagVersion(tagOutput))) else None
      ensures serverCode == if old(packageJson).Some? && old(serverCode).Some? then Some(Update(old(serverCode).value, TagVersion(tagOutput)))
                            else old(serverCode)
    {
      var latestTag := Trim(tagOutput);
      var version := if |latestTag| > 0 && latestTag[0] == 'v' then latestTag[1..] else latestTag;
      if packageJson.None? {
        return PackageUnreadable;
      }
      var pkg := packageJson.value;
      pkg := pkg["version" := version];
      packageJson := Some(pkg);
      if serverCode.None? {
        return TargetUnreadable(version);
      }
      var code := serverCode.value;
      code := Update(code, version);
      serverCode := Some(code);
      var check := CheckVersions();
      outcome := Synced(version, check);
    }
  }
}
