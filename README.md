# spring-up command rules, modelled in Dafny

This project models the decision and string rules of the spring-up
command-line tool (a Spring Shell application that creates Spring Boot
projects from template repositories):

- **`boot new`** (`BootCommands`): the project-name fallback chain
  (argument, configured default, `"demo"`); template resolution (an
  `https` argument is used as is, a name is looked up among the configured
  template repositories by trimmed, case-insensitive comparison, first match
  wins, failures raise `UpException`); the rewriting of copied template
  files, line by line, with the new project name; and the project directory
  name (spaces become underscores).
- **`catalog add`, `catalog remove`, `catalog list`**
  (`BootCatalogCommands`): maintenance of the template-catalog list held by
  the user configuration, modelled as a class whose field is the (possibly
  null) list of `(name, description, url)` records.
- **Configuration directory** (`UpCliConfigFiles`): the precedence of
  `UPCLI_CONFIG_DIR`, `XDG_CONFIG_HOME`, `APP_DATA` (on Windows) and
  `user.home`, the `os.name` test, and the hosts-file lookup.

The Java library behaviour the rules depend on is modelled in
`JavaStrings`: `StringUtils.hasText` (with `Character.isWhitespace`),
`String.trim` (drops characters at or below U+0020), `equalsIgnoreCase`,
`startsWith`, `contains`, and `String.replace`, which replaces every
occurrence and, for an empty target, inserts the replacement around every
character. Java `null` is `None` of `Wrappers.Option` wherever the code
tests for it or it can reach a comparison; exceptions are the `Failure`
side of `Wrappers.Result` (or an `Outcome` for the catalog commands).
The environment and the system properties are maps, an absent key reading
as `null`; the existing hosts files are a map from path to parsed content.

Files: `wrappers.dfy`, `java_strings.dfy`, `boot_commands.dfy`,
`boot_catalog_commands.dfy`, `up_cli_config_files.dfy`.

Where the code and the documentation disagree the model follows the code:
the comment in `replaceString` says only one token per line is replaced,
but `String.replace` replaces every occurrence
(`JavaStrings.ReplaceContinuesAfterOccurrence`,
`JavaStrings.ReplaceRewritesEveryOccurrence`); and both the
`XDG_CONFIG_HOME` branch and the `APP_DATA` branch test the environment
variable but build the path from the system property of the same name
(`UpCliConfigFiles.XdgUsesSystemProperty`,
`UpCliConfigFiles.AppDataUsesSystemProperty`).

## Model

| member | source | states |
|---|---|---|
| JavaStrings.IsWhitespace | src/main/java/org/springframework/up/command/BootCommands.java:90 | definition of `Character.isWhitespace` as `hasText` uses it: ASCII TAB to CR, FS to US, space, and the Unicode space, line and paragraph separators; the non-breaking spaces are proved not to count |
| JavaStrings.HasText | src/main/java/org/springframework/up/command/BootCommands.java:90 | definition of `StringUtils.hasText` on a string: some character is not whitespace; proved: a string without text is all whitespace, the empty string included |
| JavaStrings.HasTextOpt | src/main/java/org/springframework/up/support/UpCliConfigFiles.java:61 | `hasText` on a reference that may be null: null has no text, and neither has the empty string |
| JavaStrings.StartsWith | src/main/java/org/springframework/up/command/BootCommands.java:106 | definition of `String.startsWith`: the prefix is no longer than the string and equals the same number of leading characters of the string; decides the `https` pass-through, the `text` media types (line 177) and the Windows test of `os.name` |
| JavaStrings.Contains | src/main/java/org/springframework/up/command/BootCommands.java:204 | definition of `String.contains`: the target equals the slice at some position, so the empty target occurs in every string; decides the rewrite guard and the `xml` media types (line 177) |
| JavaStrings.SkipBlanks | src/main/java/org/springframework/up/command/BootCommands.java:130 | the start index of `trim`: every skipped character is at or below U+0020 and the one it stops at is above it |
| JavaStrings.DropTrailingBlanks | src/main/java/org/springframework/up/command/BootCommands.java:130 | the end index of `trim`: every dropped trailing character is at or below U+0020 and the last kept one is above it |
| JavaStrings.Trim | src/main/java/org/springframework/up/command/BootCommands.java:130 | the trimmed name is no longer than the input and neither starts nor ends with a character at or below U+0020 |
| JavaStrings.TrimIsMiddle | src/main/java/org/springframework/up/command/BootCommands.java:130 | the trimmed name is a contiguous slice of the input, and everything dropped before and after it is at or below U+0020 |
| JavaStrings.TrimIdempotent | src/main/java/org/springframework/up/command/BootCommands.java:130 | trimming a trimmed name changes nothing |
| JavaStrings.ToUpper | src/main/java/org/springframework/up/command/BootCommands.java:130 | definition of `Character.toUpperCase` for ASCII letters only: `a`-`z` map to `A`-`Z`, every other character to itself |
| JavaStrings.ToLower | src/main/java/org/springframework/up/command/BootCommands.java:130 | definition of `Character.toLowerCase` for ASCII letters only: `A`-`Z` map to `a`-`z`, every other character to itself |
| JavaStrings.EqualsIgnoreCase | src/main/java/org/springframework/up/command/BootCommands.java:130 | definition of `String.equalsIgnoreCase` on non-null strings: equal lengths and every pair of characters at the same index equal ignoring case |
| JavaStrings.CharEqualsIgnoreCase | src/main/java/org/springframework/up/command/BootCommands.java:130 | definition of the per-character test of `equalsIgnoreCase` (equal, equal upper case, or equal lower case of upper case); proved to hold exactly when both fold to the same lower-case character |
| JavaStrings.EqualsIgnoreCaseFolds | src/main/java/org/springframework/up/command/BootCommands.java:130 | two strings are equal ignoring case exactly when they have the same length and fold to the same lower-case characters |
| JavaStrings.EqualsIgnoreCaseEquivalence | src/main/java/org/springframework/up/command/BootCommands.java:130 | `equalsIgnoreCase` is reflexive, symmetric and transitive |
| JavaStrings.Replace | src/main/java/org/springframework/up/command/BootCommands.java:207 | definition of `String.replace`: every non-overlapping occurrence, left to right, is replaced; an empty target inserts the replacement around every character; proved: a target that does not occur leaves the line unchanged, and with an empty target the length grows by the replacement once per gap |
| JavaStrings.Interleave | src/main/java/org/springframework/up/command/BootCommands.java:207 | the empty-target case of `String.replace`: the replacement before each character and at the end, so the length is the line plus one replacement per gap, and an empty replacement changes nothing |
| JavaStrings.ReplaceScan | src/main/java/org/springframework/up/command/BootCommands.java:207 | the non-empty-target case of `String.replace`, scanning left to right; a target replaced by itself changes nothing |
| JavaStrings.ContainsTail | src/main/java/org/springframework/up/command/BootCommands.java:204 | an occurrence after the first character is an occurrence in the line |
| JavaStrings.ReplaceAbsent | src/main/java/org/springframework/up/command/BootCommands.java:204-214 | the scan for a non-empty name that does not occur leaves the line unchanged |
| JavaStrings.ReplaceSelf | src/main/java/org/springframework/up/command/BootCommands.java:207 | for every old name, rewriting with a new name equal to it leaves the line unchanged |
| JavaStrings.ReplaceContinuesAfterOccurrence | src/main/java/org/springframework/up/command/BootCommands.java:206-207 | for every line, after the first occurrence of a non-empty name the rest of the line is rewritten too, so one line can have several tokens replaced |
| JavaStrings.ScanContinuesAfterOccurrence | src/main/java/org/springframework/up/command/BootCommands.java:206-207 | the left-to-right scan, after rewriting the first occurrence, goes on rewriting the rest of the line |
| JavaStrings.ReplaceRewritesEveryOccurrence | src/main/java/org/springframework/up/command/BootCommands.java:206-207 | a line with two occurrences has both replaced, although the comment says one token per line |
| BootCommands.ProjectName | src/main/java/org/springframework/up/command/BootCommands.java:89-99 | the chosen name always has text; an argument with text is returned unchanged; otherwise the configured default if it has text, else `"demo"` |
| BootCommands.ProjectNameArgumentWins | src/main/java/org/springframework/up/command/BootCommands.java:89-92 | an argument with text is chosen whatever default is configured |
| BootCommands.ProjectNameBlankIsAbsent | src/main/java/org/springframework/up/command/BootCommands.java:89-98 | a blank argument and a null one choose the same name |
| BootCommands.ProjectNameStable | src/main/java/org/springframework/up/command/BootCommands.java:83-99 | passing the chosen name back as the argument chooses it again |
| BootCommands.NameMatches | src/main/java/org/springframework/up/command/BootCommands.java:130 | definition of the comparison of `findTemplateUrl`: the trimmed argument equals the trimmed repository name ignoring case; a match implies trimmed names of equal length |
| BootCommands.FirstMatch | src/main/java/org/springframework/up/command/BootCommands.java:129-131 | the index found is that of a repository whose trimmed name equals the trimmed argument ignoring case, and no earlier one matches; none is found only when no repository matches |
| BootCommands.ResolveTemplateName | src/main/java/org/springframework/up/command/BootCommands.java:127-140 | a resolved URL has text and is the URL of the first repository whose name matches; a first match whose URL has text resolves to exactly that URL; when no name matches it fails; every failure is the "could not resolve" error for that name |
| BootCommands.FindTemplateUrl | src/main/java/org/springframework/up/command/BootCommands.java:127-140 | the loop with its early return and `break` yields exactly the first-match resolution |
| BootCommands.FirstMatchAppend | src/main/java/org/springframework/up/command/BootCommands.java:129-137 | repositories listed after a match do not move the first match |
| BootCommands.FirstMatchDecides | src/main/java/org/springframework/up/command/BootCommands.java:129-137 | once some repository matches, nothing appended after it (a duplicate name included) changes the result |
| BootCommands.BlankFirstMatchFails | src/main/java/org/springframework/up/command/BootCommands.java:130-139 | a first match whose URL is blank or null fails, even when a later repository of that name has a URL |
| BootCommands.FirstMatchIgnoresCaseAndPadding | src/main/java/org/springframework/up/command/BootCommands.java:130 | two names that agree after trimming and ignoring case find the same repository |
| BootCommands.TemplateRepositoryUrl | src/main/java/org/springframework/up/command/BootCommands.java:102-124 | a returned URL has text and is either the `https` argument itself or a configured repository URL; the "template name not specified" error occurs exactly when neither the argument nor the default name has text |
| BootCommands.HttpsTemplatePassesThrough | src/main/java/org/springframework/up/command/BootCommands.java:104-108 | an argument with text starting with `https` is returned verbatim whatever repositories are configured |
| BootCommands.TemplateNameLookedUp | src/main/java/org/springframework/up/command/BootCommands.java:109-113 | any other argument with text is resolved by name, and the default name is not used |
| BootCommands.DefaultTemplateNameLookedUp | src/main/java/org/springframework/up/command/BootCommands.java:114-118 | without an argument with text, the configured default name is resolved |
| BootCommands.RewriteLine | src/main/java/org/springframework/up/command/BootCommands.java:202-216 | the per-line choice always equals `String.replace` of the old name by the new one: the `contains` guard never changes the outcome |
| BootCommands.RewriteLineUntouched | src/main/java/org/springframework/up/command/BootCommands.java:213-215 | a line not containing the old name is copied unchanged |
| BootCommands.LineList.constructor | src/main/java/org/springframework/up/command/BootCommands.java:178 | the list of rewritten lines starts empty |
| BootCommands.ReplaceString | src/main/java/org/springframework/up/command/BootCommands.java:202-216 | appends exactly one line, the rewritten one, to the caller's list and changes nothing else in it |
| BootCommands.RewriteLines | src/main/java/org/springframework/up/command/BootCommands.java:178-183 | one output line per input line, in order, each with every occurrence of the old project name replaced |
| BootCommands.IsTextual | src/main/java/org/springframework/up/command/BootCommands.java:177 | definition of the media-type test: a type starting with `text` or containing `xml`; every type containing `xml` is textual |
| BootCommands.CopyTemplateFiles | src/main/java/org/springframework/up/command/BootCommands.java:169-194 | every file is copied in order with its path; when the template's project name is known, textual files (media type starting with `text` or containing `xml`) have every line rewritten, all other files keep their lines |
| BootCommands.DirectoryName | src/main/java/org/springframework/up/command/BootCommands.java:233 | same length as the project name, every space turned into `_`, every other character unchanged, no space left |
| BootCommands.DirectoryNameWithoutSpaces | src/main/java/org/springframework/up/command/BootCommands.java:233 | a name without spaces is its own directory name |
| BootCommands.DirectoryNameKeepsText | src/main/java/org/springframework/up/command/BootCommands.java:233 | a project name with text gives a directory name with text |
| BootCatalogCommands.Named | src/main/java/org/springframework/up/command/BootCatalogCommands.java:85 | definition of `nullSafeEquals` of a catalog name with the given non-null name: a catalog whose name is null never carries a name |
| BootCatalogCommands.WithoutName | src/main/java/org/springframework/up/command/BootCatalogCommands.java:84-86 | no catalog left carries the removed name, and the list does not grow |
| BootCatalogCommands.RemovePreservesOrder | src/main/java/org/springframework/up/command/BootCatalogCommands.java:84-86 | the remaining catalogs keep their original relative order |
| BootCatalogCommands.RemoveKeepsOthers | src/main/java/org/springframework/up/command/BootCatalogCommands.java:84-86 | every catalog with another name (or none) is kept as many times as it occurred |
| BootCatalogCommands.RemoveAbsent | src/main/java/org/springframework/up/command/BootCatalogCommands.java:84-89 | removing a name no catalog carries leaves the list equal to before |
| BootCatalogCommands.RemoveIdempotent | src/main/java/org/springframework/up/command/BootCatalogCommands.java:84-89 | removing the same name twice is removing it once |
| BootCatalogCommands.RemoveDistributes | src/main/java/org/springframework/up/command/BootCatalogCommands.java:84-86 | the filter of a concatenation is the concatenation of the filters |
| BootCatalogCommands.RemoveAfterAdd | src/main/java/org/springframework/up/command/BootCatalogCommands.java:54-89 | removing a name undoes adding a catalog of that name, and keeps a catalog added under another name at the end |
| BootCatalogCommands.Rows | src/main/java/org/springframework/up/command/BootCatalogCommands.java:67-68 | one `[name, description]` row per catalog, in list order |
| BootCatalogCommands.UpCliUserConfig.constructor | src/main/java/org/springframework/up/command/BootCatalogCommands.java:41-46 | the configuration holds the given catalog list |
| BootCatalogCommands.UpCliUserConfig.CatalogAdd | src/main/java/org/springframework/up/command/BootCatalogCommands.java:54-58 | the new `(name, description, url)` is appended at the end, earlier entries unchanged and in order, no duplicate check; a null list throws and changes nothing |
| BootCatalogCommands.UpCliUserConfig.CatalogRemove | src/main/java/org/springframework/up/command/BootCatalogCommands.java:83-89 | the list becomes the order-preserving filter of the catalogs not carrying the name; a null list throws and changes nothing |
| BootCatalogCommands.UpCliUserConfig.CatalogList | src/main/java/org/springframework/up/command/BootCatalogCommands.java:63-73 | the header `["Name","Description"]` followed by one row per catalog in order, so the catalog count plus one rows; a null list gives the header alone |
| BootCatalogCommands.AddedCatalogListedLast | src/main/java/org/springframework/up/command/BootCatalogCommands.java:54-73 | after an add, the listing is the old rows followed by the new catalog's row, whether or not its name already occurs |
| UpCliConfigFiles.Lookup | src/main/java/org/springframework/up/support/UpCliConfigFiles.java:61 | `System.getenv` / `System.getProperty`: a value exactly when the key is present, that key's value; null otherwise |
| UpCliConfigFiles.IsWindows | src/main/java/org/springframework/up/support/UpCliConfigFiles.java:76-82 | fails exactly when `os.name` has no text, and otherwise is true exactly when it starts with `Windows` |
| UpCliConfigFiles.PathOfProperty | src/main/java/org/springframework/up/support/UpCliConfigFiles.java:65 | `Path.of` on a system property succeeds exactly when the property is set, and fails with a null-pointer error otherwise |
| UpCliConfigFiles.ConfigDir | src/main/java/org/springframework/up/support/UpCliConfigFiles.java:59-74 | `UPCLI_CONFIG_DIR` with text is the directory, whatever else is set; every other successful branch ends in the `springup` component |
| UpCliConfigFiles.XdgUsesSystemProperty | src/main/java/org/springframework/up/support/UpCliConfigFiles.java:64-65 | once the `XDG_CONFIG_HOME` variable has text, its value plays no part: the directory comes from the system property of that name, and fails when that property is unset |
| UpCliConfigFiles.AppDataUsesSystemProperty | src/main/java/org/springframework/up/support/UpCliConfigFiles.java:67-68 | on Windows, once the `APP_DATA` variable has text and no earlier variable does, its value plays no part: the directory is `<APP_DATA system property>/springup`, and fails when that property is unset |
| UpCliConfigFiles.OsNameReadOnlyForAppData | src/main/java/org/springframework/up/support/UpCliConfigFiles.java:67 | when `APP_DATA` has no text, `os.name` is never consulted: property sets differing only in it give the same result |
| UpCliConfigFiles.OsNameFailure | src/main/java/org/springframework/up/support/UpCliConfigFiles.java:61-80 | the `os.name` failure occurs exactly when neither `UPCLI_CONFIG_DIR` nor `XDG_CONFIG_HOME` has text, `APP_DATA` has text and `os.name` has none |
| UpCliConfigFiles.FallbackDir | src/main/java/org/springframework/up/support/UpCliConfigFiles.java:70-71 | with no variable taking effect, the directory is `<user.home>/.config/springup` |
| UpCliConfigFiles.HostsFile | src/main/java/org/springframework/up/support/UpCliConfigFiles.java:49 | the hosts file is the configuration directory with one more component, `hosts.yml` |
| UpCliConfigFiles.GetHosts | src/main/java/org/springframework/up/support/UpCliConfigFiles.java:46-57 | fails only when the directory cannot be determined; a missing hosts file gives no hosts, an existing one gives what reading it yields |
| UpCliConfigFiles.HostsUnderExplicitDir | src/main/java/org/springframework/up/support/UpCliConfigFiles.java:46-62 | under an explicit `UPCLI_CONFIG_DIR`, the hosts come from `<UPCLI_CONFIG_DIR>/hosts.yml` or are empty |

## Left out

- The interactive prompt engine (`ComponentFlow`) that drives the terminal wizards: its source is not part of this model; only a test that feeds bytes to a terminal from a background thread exists, and that is no basis for a model.
- Repository download (`SourceRepositoryService`), root-package detection, package refactoring (`refactorPackage`, OpenRewrite), POM reading (`getProjectInfo`), and `PackageNameUtils.getPackageName`: external libraries and file I/O; the project info is an input.
- The sequencing of `bootNew` (lines 83-86), which only calls the modelled rules, the package-name default and `generateFromUrl` in turn.
- File copying, directory scanning and creation, media-type detection, and reading and writing lines: a template file is a value with a path, a media type and its lines; line terminators are not modelled.
- CopyTemplateFiles: the executable flag set on copies (lines 186-188) is not modelled.
- The console messages (`System.out`, logging) and the table borders of `catalog list`: only the table data is modelled.
- Writing the user configuration back to its file when the catalog list is set, and a null `TemplateCatalogs` object: the model starts from the catalog list itself.
- YAML parsing of `hosts.yml` (`YamlConfigFile`): the parsed content of each existing hosts file is an input; a parse failure is not modelled.
- The GitHub login and status commands, the OAuth device flow and the demo commands: network clients.
- Path normalisation and platform separators: a path is the list of components given to `Path.of`.
- JavaStrings.CharEqualsIgnoreCase: case folding is ASCII only (in ToUpper and ToLower); Unicode case mappings of `Character.toUpperCase`/`toLowerCase` are not modelled.
- JavaStrings.Trim: characters are Unicode scalar values, not UTF-16 code units; surrogate pairs are not distinguished.
- A null repository name, a null project name in the POM, or a null `templateRepositories` list: each makes the Java code throw a `NullPointerException`; the model takes these as non-null strings and lists.
