/** The decision rules of the `boot new` command: which project name and
    which template URL to use, how copied template files are rewritten with
    the new project name, and how the project directory is named. The
    repository download, the package refactoring and the file system are
    outside this model; the files of a template are given as values. */
module BootCommands {
  import opened Wrappers
  import opened JavaStrings

  /** The last-resort project name. */
  const DefaultProjectName: string := "demo"

  /** The defaults section of the application properties; each entry may be unset. */
  datatype Defaults = Defaults(
    projectName: Option<string>,
    templateRepositoryName: Option<string>,
    packageName: Option<string>)

  /** A named template repository of the configuration; its URL may be unset. */
  datatype TemplateRepository = TemplateRepository(name: string, url: Option<string>)

  /** The application properties the command reads. */
  datatype UpCliProperties = UpCliProperties(
    defaults: Defaults,
    templateRepositories: seq<TemplateRepository>)

  /** The two ways template resolution fails with an UpException. */
  datatype UpException =
    | TemplateNotSpecified
    | UnresolvedTemplateName(templateName: string)

  /** The project name as read from the template's build file. */
  datatype ProjectInfo = ProjectInfo(
    name: string,
    groupId: Option<string>,
    artifactId: Option<string>,
    version: Option<string>)

  // ---------------------------------------------------------------------
  // Project name

  /** getProjectName: the argument if it has text, else the configured
      default if that has text, else "demo". */
  function ProjectName(props: UpCliProperties, projectName: Option<string>): (r: string)
    ensures HasText(r)
    ensures HasTextOpt(projectName) ==> r == projectName.value
    ensures !HasTextOpt(projectName) ==>
      r == (if HasTextOpt(props.defaults.projectName) then props.defaults.projectName.value
            else DefaultProjectName)
  {
    if HasTextOpt(projectName) then projectName.value
    else if HasTextOpt(props.defaults.projectName) then props.defaults.projectName.value
    else assert !IsWhitespace(DefaultProjectName[0]); DefaultProjectName
  }

  /** An argument with text is used whatever default is configured. */
  lemma ProjectNameArgumentWins(p1: UpCliProperties, p2: UpCliProperties, name: string)
    requires HasText(name)
    ensures ProjectName(p1, Some(name)) == ProjectName(p2, Some(name)) == name
  {
  }

  /** A blank argument and a missing one are treated alike. */
  lemma ProjectNameBlankIsAbsent(props: UpCliProperties, name: string)
    requires !HasText(name)
    ensures ProjectName(props, Some(name)) == ProjectName(props, None)
  {
  }

  /** Feeding the chosen name back as the argument chooses it again. */
  lemma ProjectNameStable(props: UpCliProperties, projectName: Option<string>)
    ensures ProjectName(props, Some(ProjectName(props, projectName))) == ProjectName(props, projectName)
  {
  }

  // ---------------------------------------------------------------------
  // Template resolution

  /** The comparison of findTemplateUrl: trimmed names, equal ignoring case. */
  predicate NameMatches(templateName: string, repository: TemplateRepository)
    ensures NameMatches(templateName, repository) ==> |Trim(templateName)| == |Trim(repository.name)|
  {
    EqualsIgnoreCase(Trim(templateName), Trim(repository.name))
  }

  /** The position of the first repository whose name matches, if any. */
  function FirstMatch(repositories: seq<TemplateRepository>, templateName: string): (k: Option<nat>)
    ensures k.Some? ==> k.value < |repositories| && NameMatches(templateName, repositories[k.value])
    ensures k.Some? ==> forall j :: 0 <= j < k.value ==> !NameMatches(templateName, repositories[j])
    ensures k.None? ==> forall j :: 0 <= j < |repositories| ==> !NameMatches(templateName, repositories[j])
  {
    if repositories == [] then None
    else if NameMatches(templateName, repositories[0]) then Some(0)
    else
      match FirstMatch(repositories[1..], templateName)
      case None => None
      case Some(j) => Some(j + 1)
  }

  /** What findTemplateUrl yields: the URL of the first repository whose
      name matches, provided that URL has text; an error otherwise. */
  function ResolveTemplateName(repositories: seq<TemplateRepository>, templateName: string)
    : (r: Result<string, UpException>)
    ensures r.Success? ==> HasText(r.value)
    ensures r.Success? ==> exists k ::
      && 0 <= k < |repositories|
      && NameMatches(templateName, repositories[k])
      && (forall j :: 0 <= j < k ==> !NameMatches(templateName, repositories[j]))
      && repositories[k].url == Some(r.value)
    ensures (forall k :: 0 <= k < |repositories| ==> !NameMatches(templateName, repositories[k])) ==> r.Failure?
    ensures forall k ::
      (&& 0 <= k < |repositories|
       && NameMatches(templateName, repositories[k])
       && (forall j :: 0 <= j < k ==> !NameMatches(templateName, repositories[j]))
       && HasTextOpt(repositories[k].url))
      ==> r == Success(repositories[k].url.value)
    ensures r.Failure? ==> r.error == UnresolvedTemplateName(templateName)
  {
    match FirstMatch(repositories, templateName)
    case None => Failure(UnresolvedTemplateName(templateName))
    case Some(k) =>
      if HasTextOpt(repositories[k].url) then Success(repositories[k].url.value)
      else Failure(UnresolvedTemplateName(templateName))
  }

  /** findTemplateUrl: scans the configured repositories in order, returns
      on the first matching name with a URL that has text, and stops at the
      first matching name without one. */
  method FindTemplateUrl(props: UpCliProperties, templateName: string)
    returns (r: Result<string, UpException>)
    ensures r == ResolveTemplateName(props.templateRepositories, templateName)
  {
    var repositories := props.templateRepositories;
    var i := 0;
    while i < |repositories|
      invariant 0 <= i <= |repositories|
      invariant forall j :: 0 <= j < i ==> !NameMatches(templateName, repositories[j])
    {
      if NameMatches(templateName, repositories[i]) {
        var url := repositories[i].url;
        if HasTextOpt(url) {
          return Success(url.value);
        }
        break;
      }
      i := i + 1;
    }
    return Failure(UnresolvedTemplateName(templateName));
  }

  lemma {:induction false} FirstMatchAppend(
    repositories: seq<TemplateRepository>, more: seq<TemplateRepository>, templateName: string)
    requires FirstMatch(repositories, templateName).Some?
    ensures FirstMatch(repositories + more, templateName) == FirstMatch(repositories, templateName)
  {
    if !NameMatches(templateName, repositories[0]) {
      assert (repositories + more)[1..] == repositories[1..] + more;
      FirstMatchAppend(repositories[1..], more, templateName);
    }
  }

  /** The first matching repository decides: nothing listed after it, a
      duplicate name included, is ever consulted. */
  lemma FirstMatchDecides(
    repositories: seq<TemplateRepository>, more: seq<TemplateRepository>, templateName: string)
    requires exists k :: 0 <= k < |repositories| && NameMatches(templateName, repositories[k])
    ensures ResolveTemplateName(repositories + more, templateName)
         == ResolveTemplateName(repositories, templateName)
  {
    FirstMatchAppend(repositories, more, templateName);
  }

  /** A first match whose URL is blank or unset fails, even when a later
      repository of the same name has a URL. */
  lemma BlankFirstMatchFails(repositories: seq<TemplateRepository>, templateName: string, k: nat)
    requires k < |repositories| && NameMatches(templateName, repositories[k])
    requires forall j :: 0 <= j < k ==> !NameMatches(templateName, repositories[j])
    requires !HasTextOpt(repositories[k].url)
    ensures ResolveTemplateName(repositories, templateName) == Failure(UnresolvedTemplateName(templateName))
  {
  }

  /** Names that agree after trimming and ignoring case resolve alike. */
  lemma {:induction false} FirstMatchIgnoresCaseAndPadding(
    repositories: seq<TemplateRepository>, a: string, b: string)
    requires EqualsIgnoreCase(Trim(a), Trim(b))
    ensures FirstMatch(repositories, a) == FirstMatch(repositories, b)
  {
    if repositories != [] {
      var n := Trim(repositories[0].name);
      EqualsIgnoreCaseEquivalence(Trim(a), Trim(b), n);
      EqualsIgnoreCaseEquivalence(Trim(b), Trim(a), n);
      FirstMatchIgnoresCaseAndPadding(repositories[1..], a, b);
    }
  }

  /** getTemplateRepositoryUrl: an argument with text that starts with
      "https" is used as it is; any other argument with text is looked up;
      with no argument the configured default name is looked up; with
      neither, the command fails. */
  function TemplateRepositoryUrl(props: UpCliProperties, templateName: Option<string>)
    : (r: Result<string, UpException>)
    ensures r.Success? ==> HasText(r.value)
    ensures r.Success? ==>
      || (HasTextOpt(templateName) && StartsWith(templateName.value, "https") && r.value == templateName.value)
      || exists k :: 0 <= k < |props.templateRepositories| && props.templateRepositories[k].url == Some(r.value)
    ensures r == Failure(TemplateNotSpecified) <==>
      !HasTextOpt(templateName) && !HasTextOpt(props.defaults.templateRepositoryName)
  {
    if HasTextOpt(templateName) then
      if StartsWith(templateName.value, "https") then Success(templateName.value)
      else ResolveTemplateName(props.templateRepositories, templateName.value)
    else
      var defaultTemplateName := props.defaults.templateRepositoryName;
      if HasTextOpt(defaultTemplateName) then
        ResolveTemplateName(props.templateRepositories, defaultTemplateName.value)
      else Failure(TemplateNotSpecified)
  }

  /** An "https" argument is returned verbatim; the repository list is not consulted. */
  lemma HttpsTemplatePassesThrough(p1: UpCliProperties, p2: UpCliProperties, url: string)
    requires HasText(url) && StartsWith(url, "https")
    ensures TemplateRepositoryUrl(p1, Some(url)) == TemplateRepositoryUrl(p2, Some(url)) == Success(url)
  {
  }

  /** A name argument with text is looked up, and the configured default
      name plays no part. */
  lemma TemplateNameLookedUp(props: UpCliProperties, name: string)
    requires HasText(name) && !StartsWith(name, "https")
    ensures TemplateRepositoryUrl(props, Some(name)) == ResolveTemplateName(props.templateRepositories, name)
  {
  }

  /** Without an argument, the configured default name is looked up. */
  lemma DefaultTemplateNameLookedUp(props: UpCliProperties, templateName: Option<string>)
    requires !HasTextOpt(templateName) && HasTextOpt(props.defaults.templateRepositoryName)
    ensures TemplateRepositoryUrl(props, templateName)
         == ResolveTemplateName(props.templateRepositories, props.defaults.templateRepositoryName.value)
  {
  }

  // ---------------------------------------------------------------------
  // Rewriting copied template files

  /** replaceString's choice for one line: the line with the old project
      name replaced when it contains it, the line itself otherwise. The
      guard is redundant: the result is always String.replace's. */
  function RewriteLine(line: string, oldName: string, newName: string): (r: string)
    ensures r == Replace(line, oldName, newName)
  {
    if Contains(line, oldName) then Replace(line, oldName, newName) else line
  }

  /** A line that does not mention the old name is copied unchanged. */
  lemma RewriteLineUntouched(line: string, oldName: string, newName: string)
    requires !Contains(line, oldName)
    ensures RewriteLine(line, oldName, newName) == line
  {
  }

  /** The list the rewritten lines of one file are appended to. */
  class LineList {
    var lines: seq<string>

    constructor ()
      ensures lines == []
    {
      lines := [];
    }
  }

  /** replaceString: appends the rewritten line to the caller's list. */
  method ReplaceString(projectName: string, projectInfo: ProjectInfo, replacedLines: LineList, originalLine: string)
    modifies replacedLines
    ensures replacedLines.lines == old(replacedLines.lines) + [RewriteLine(originalLine, projectInfo.name, projectName)]
  {
    var replaced := false;
    if Contains(originalLine, projectInfo.name) {
      replaced := true;
      var processedLine := Replace(originalLine, projectInfo.name, projectName);
      replacedLines.lines := replacedLines.lines + [processedLine];
    }
    if !replaced {
      replacedLines.lines := replacedLines.lines + [originalLine];
    }
  }

  /** The line loop of generateFromUrl: one output line per input line, in
      the same order, each with every occurrence of the template's project
      name replaced by the new one. */
  method RewriteLines(projectName: string, projectInfo: ProjectInfo, originalLines: seq<string>)
    returns (replaced: seq<string>)
    ensures |replaced| == |originalLines|
    ensures forall i :: 0 <= i < |originalLines| ==>
      replaced[i] == Replace(originalLines[i], projectInfo.name, projectName)
  {
    var replacedLines := new LineList();
    for i := 0 to |originalLines|
      invariant |replacedLines.lines| == i
      invariant forall j :: 0 <= j < i ==>
        replacedLines.lines[j] == Replace(originalLines[j], projectInfo.name, projectName)
    {
      ReplaceString(projectName, projectInfo, replacedLines, originalLines[i]);
    }
    replaced := replacedLines.lines;
  }

  /** A template file: its path relative to the template, the media type
      detected for it, and its lines. */
  datatype TemplateFile = TemplateFile(path: string, mediaType: string, lines: seq<string>)

  /** The media-type test of generateFromUrl: a text type or an XML type. */
  predicate IsTextual(mediaType: string)
    ensures Contains(mediaType, "xml") ==> IsTextual(mediaType)
  {
    StartsWith(mediaType, "text") || Contains(mediaType, "xml")
  }

  /** The copy loop of generateFromUrl: every file is copied; when the
      template's project name is known, the lines of each textual file are
      rewritten, and every other file keeps its content. */
  method CopyTemplateFiles(projectName: string, projectInfo: Option<ProjectInfo>, files: seq<TemplateFile>)
    returns (copied: seq<TemplateFile>)
    ensures |copied| == |files|
    ensures forall i :: 0 <= i < |files| ==>
      copied[i].path == files[i].path && copied[i].mediaType == files[i].mediaType
    ensures forall i :: 0 <= i < |files| ==>
      if projectInfo.Some? && IsTextual(files[i].mediaType) then
        |copied[i].lines| == |files[i].lines| &&
        forall j :: 0 <= j < |files[i].lines| ==>
          copied[i].lines[j] == Replace(files[i].lines[j], projectInfo.value.name, projectName)
      else copied[i].lines == files[i].lines
  {
    copied := [];
    for i := 0 to |files|
      invariant |copied| == i
      invariant forall k :: 0 <= k < i ==>
        copied[k].path == files[k].path && copied[k].mediaType == files[k].mediaType
      invariant forall k :: 0 <= k < i ==>
        if projectInfo.Some? && IsTextual(files[k].mediaType) then
          |copied[k].lines| == |files[k].lines| &&
          forall j :: 0 <= j < |files[k].lines| ==>
            copied[k].lines[j] == Replace(files[k].lines[j], projectInfo.value.name, projectName)
        else copied[k].lines == files[k].lines
    {
      var file := files[i];
      if projectInfo.Some? && IsTextual(file.mediaType) {
        var lines := RewriteLines(projectName, projectInfo.value, file.lines);
        file := file.(lines := lines);
      }
      copied := copied + [file];
    }
  }

  // ---------------------------------------------------------------------
  // Project directory

  /** The directory name of createProjectDirectory: the project name with
      every space turned into an underscore and nothing else changed. */
  function DirectoryName(projectName: string): (r: string)
    ensures |r| == |projectName|
    ensures forall i :: 0 <= i < |r| ==> r[i] == if projectName[i] == ' ' then '_' else projectName[i]
    ensures ' ' !in r
  {
    if projectName == [] then []
    else [if projectName[0] == ' ' then '_' else projectName[0]] + DirectoryName(projectName[1..])
  }

  /** A name without spaces is its own directory name. */
  lemma DirectoryNameWithoutSpaces(projectName: string)
    requires ' ' !in projectName
    ensures DirectoryName(projectName) == projectName
  {
  }

  /** A project name with text gives a directory name with text. */
  lemma DirectoryNameKeepsText(projectName: string)
    requires HasText(projectName)
    ensures HasText(DirectoryName(projectName))
  {
  }
}
