# A verified model of the dati-semantic-tools acceptance machinery

dati-semantic-tools checks and builds the semantic assets of the Italian national data catalogue.
The assets are ontologies, controlled vocabularies and annotated OpenAPI schemas, kept in a directory tree.
This project models, in Dafny, the part of the tools that decides whether files are accepted:

- the catalogue listing and the dispatch of a file to its syntactic checker;
- the `validate` and `build` commands of the package's command line;
- the nearest-ancestor search for `rules.shacl` and the SHACL validators built on it;
- the "`latest` mirrors the newest version" rule and the LooseVersion order behind it;
- the naming and layout validators: file name format, file name against directory, file name against main URI, mandatory files, repository structure, UTF-8 well-formedness and CSV field names;
- the semantic reference closure of JSON-LD contexts, the catalogue record of a schema and the semantic bundle;
- the JSON-LD framing of vocabularies into YAML and CSV;
- the `Asset` class, build-output naming and freshness, publication URIs and URLs;
- the vocabulary download script.

The model follows the code's own form.
Validators that append to the caller's `errors` list are methods on the class `ErrorLog.Errors`.
Each such method is proved against a pure function that gives the messages it appends (the `...Report` and `...Messages` functions).
Loops of the source are `while`/`for` loops proved against recursive specification functions.
Expression-level code is modelled as functions and lemmas.
The libraries the tools call are parameters of the model: rdflib, pyld, pyshacl, frictionless, jsonschema, openapi-spec-validator and YAML loading.
The same goes for the network and the clock.
The file system is a value: a map from paths to files (bytes and modification time) and directories (entry names in enumeration order).
Names are ASCII and have no newline; Python's Unicode `\w` and `\d` classes are taken as their ASCII parts.

Files: `wrappers`, `strings`, `paths`, `filesystem`, `glob`, `json`, `rdf`, `utf8`, `looseversion` and `errorlog` hold the shared vocabulary (pathlib, str, fnmatch, JSON values, RDF graphs, UTF-8, LooseVersion, the error list).
Every other file models one source module.

Where the written description of the tools and the code disagree, the model follows the code:

- The dispatch table is described as trying `context-*.ld.yaml` before `*.ld.yaml`. In the code the order is the opposite, so `*.ld.yaml` always wins (`Dispatch.FramingContextShadowed`).
- A `latest` file is described as failing whenever one byte differs from its versioned copy. Text-mode reading translates `\r` and `\r\n` to `\n`, so `a\r` and `a\n` read as the same lines (`Utf8.CarriageReturnReadsAsNewline`).
- A missing versioned counterpart is described as a dedicated error, and an undecodable file as "not decodable for diff". The code appends the exception's own text in the first case and "Error reading files" in the second (`Versioned.VersionedReportMeaning`).
- Build mode ends in `exit(0)`, but `Pool.map`/`starmap` re-raise a worker's exception, so that exit is reached only when no builder call failed (`Cli.BuildPlanSound`).

## Model

| member | source | states |
|---|---|---|
| Dispatch.FirstMatch | dati_playground/validators/__init__.py:91-92 | the index chosen is that of a pattern matching the name with no earlier pattern matching it; there is none exactly when no pattern of the table matches |
| Dispatch.MatchingRule | dati_playground/validators/__init__.py:91-92 | the loop over the patterns stops at exactly the rule the first-match specification picks, and reports none when no pattern matches |
| Dispatch.CalledWithText | dati_playground/validators/__init__.py:63-70 | a one-parameter checker called with the text decides as its verdict says |
| Dispatch.PackageAsWrittenMeaning | dati_playground/validators/__init__.py:85-98 | as written, a file routed to a two-parameter checker raises TypeError whatever its content; the others get the verdict ValidateFile specifies |
| Dispatch.TurtleFilesRaiseAsWritten | dati_playground/validators/__init__.py:64 | as written, every `.ttl` file under the size ceiling is routed to the turtle checker and raises TypeError |
| Dispatch.ValidateFile | dati_playground/validators/__init__.py:85-98 | a size strictly above the ceiling (4 << 20, or 1 << 20 for the script, where formatting the message raises AttributeError) fails before any checker runs; otherwise exactly the first matching pattern's checker is called, and a truthy verdict means valid, a falsy one "Invalid file", a raise propagates; no matching pattern means "Unsupported file"; at most one checker is called |
| Dispatch.ContextNamesAreJsonLdNames | dati_playground/validators/__init__.py:66-69 | every name matching `context-*.ld.yaml` also matches `*.ld.yaml` |
| Dispatch.FramingContextShadowed | dati_playground/validators/__init__.py:63-70 | in both tables the framing-context checker is never the one selected, because `*.ld.yaml` comes first |
| Dispatch.SupportedIffExtension | validate.py:16-22 | a name is supported exactly when it ends with one of the table's extensions, so the script, which has no `*.shacl` entry, rejects `.shacl` files as unsupported |
| Dispatch.ListFiles | dati_playground/validators/__init__.py:101-109 | the listing is every walked file that is neither skipped by suffix nor named `index.ttl`, as root/name, in walk order |
| Dispatch.KeepFiles | dati_playground/validators/__init__.py:103-109 | one directory's files are kept in order exactly as the listing specifies |
| Dispatch.KeptInIff | dati_playground/validators/__init__.py:103-107 | a path is kept from a directory exactly when it is root/name for one of its files that has no skip suffix and is not `index.ttl` |
| Dispatch.ListedPathsIff | dati_playground/validators/__init__.py:101-109 | a path is listed exactly when some visited directory holds a kept file of that name |
| Dispatch.PackageListingWithinScript | validate.py:24 | the script skips only five suffixes, so every path the package lists the script lists too (it also yields, say, `.html` files) |
| Dispatch.IsJsonLd | dati_playground/validators/__init__.py:24-28 | the check is truthy exactly when the content parses, and never falsy: a parse failure raises |
| Dispatch.IsFramingContext | dati_playground/validators/__init__.py:31-33 | the verdict is the JSON-LD check's whatever the framing-context schema would say: the schema validation after the early return is unreachable |
| Dispatch.IsValidSqlite | dati_playground/validators.py:70-74 | raises for every input |
| Cli.CheckOrderLists | dati_playground/__main__.py:141-166 | every one of the thirteen checks has its place in the fixed per-file order |
| Cli.Step | dati_playground/__main__.py:141-142 | one `if option: check.validate(f, errors)`: a disabled check leaves the shared list alone, an enabled one appends its messages and may raise |
| Cli.CheckFile | dati_playground/__main__.py:140-166 | the loop body runs the enabled checks on one file in the fixed order shacl … utf8, each appending to the shared list, until one raises |
| Cli.Validate | dati_playground/__main__.py:137-174 | `validate` over the file arguments, in argument order, with one shared list, ends as the specification of its report and exit status says |
| Cli.FileRunExtends | dati_playground/__main__.py:141-166 | the checks only append: the list before a file's checks is a prefix of the list after them |
| Cli.FileRunRaises | dati_playground/__main__.py:141-166 | a file's sequence ends in an exception exactly when one of its enabled checks raises |
| Cli.FileRunMessages | dati_playground/__main__.py:141-166 | without an exception, a message is on the list after a file's checks exactly when it was there before or an enabled check appended it |
| Cli.FileChecksRaise | dati_playground/__main__.py:141-166 | for the fixed order: a file raises exactly when some enabled check raises on it |
| Cli.FileChecksMessages | dati_playground/__main__.py:141-166 | for the fixed order: without an exception, the file adds exactly the messages of its enabled checks |
| Cli.FilesRunExtends | dati_playground/__main__.py:137-166 | the shared list is only appended to across all the files |
| Cli.FilesRunRaises | dati_playground/__main__.py:139-166 | the loop ends in an exception exactly when some enabled check raises on some file argument |
| Cli.FilesRunMessages | dati_playground/__main__.py:137-166 | without an exception, the shared list holds exactly the messages the enabled checks appended over all the files, and nothing else |
| Cli.ErrorLineInjective | dati_playground/__main__.py:171 | two distinct messages never print the same `ERROR: ` line |
| Cli.ReportLines | dati_playground/__main__.py:168-171 | after deduplication there is an `ERROR: ` line for a message exactly when the message is on the list |
| Cli.ValidateEndingMeaning | dati_playground/__main__.py:137-174 | `validate` raises exactly when an enabled check raises on some file; otherwise it exits with status 1, printing a line for a message exactly when an enabled check appended it, when any message was appended, and returns without exiting exactly when none was |
| Cli.FileRunIgnoresDisabled | dati_playground/__main__.py:141-166 | what a disabled check would do never affects a file's sequence |
| Cli.DisabledNeverCalled | dati_playground/__main__.py:139-166 | disabled checks are never called: two behaviours that agree on the enabled checks give the same run over all the files |
| Cli.SchemaAlsoJson | dati_playground/__main__.py:118-131 | a file routed to the schema index (name ending `.oas3.yaml`) is routed to the JSON builder too, its last suffix being `.yaml` |
| Cli.Selection | dati_playground/__main__.py:97-102 | a listed file is kept exactly when `pattern` occurs in its name and no `exclude` item does |
| Cli.DefaultSelection | dati_playground/__main__.py:62-63 | with the default options (pattern "" and exclude ["NoneString"]) a file is kept exactly when its name does not contain "NoneString" |
| Cli.Batch | dati_playground/__main__.py:109-112 | a starmap's generator yields a call exactly for each selected file the builder routes, with the builder's destination |
| Cli.FirstFailure | dati_playground/__main__.py:105-131 | a map over a batch re-raises a worker's exception exactly when some call of the batch fails |
| Cli.BuildMode | dati_playground/__main__.py:92-134 | `build` takes `assets` and `_build` unless the arguments name the base and build directories, lists and filters the files, and issues the enabled batches in the source's order, stopping at a re-raised exception |
| Cli.Starmap | dati_playground/__main__.py:109-112 | one starmap makes the calls the pool makes for its batch (all of them when none fails) and re-raises the first failure in list order |
| Cli.ChunkSize | dati_playground/__main__.py:105 | the chunk size of a pool of 4 workers is the number of calls divided by 16, rounded up, and at least 1 for a non-empty batch |
| Cli.RunChunkReaches | dati_playground/__main__.py:105-112 | a worker running a chunk makes a call exactly when every earlier call of the chunk succeeded |
| Cli.IssuedMeaning | dati_playground/__main__.py:105-112 | a pool makes only calls of its batch, makes all of them when none fails, and the batch's first failure in list order is always made and is the first failure among the calls made |
| Cli.PoolCallsMeaning | dati_playground/__main__.py:105-112 | the same, for the chunk size the pool chooses |
| Cli.FirstFailureAppend | dati_playground/__main__.py:105-112 | the first failure of two runs in sequence is the first run's when it has one, and otherwise the second's |
| Cli.RunStagesGood | dati_playground/__main__.py:106-131 | batches issued in rank order keep every call sound and ordered, and keep the run going exactly while no call has failed |
| Cli.BuildPlanSound | dati_playground/__main__.py:92-134 | every call `build` issues is an enabled task (never the asset builder) on a selected file it routes, into the build directory (validation with none, the second schema batch into "."); the batches come in the order validate, semantic, CSV, JSON, schema, schema into "."; the run exits 0 exactly when no worker call failed |
| Cli.RunStagesGrows | dati_playground/__main__.py:106-131 | later batches keep the directories and the file list and only append calls |
| Cli.RunStagesIssues | dati_playground/__main__.py:106-131 | a run that ends without an exception issued every enabled batch in full |
| Cli.BuildPlanComplete | dati_playground/__main__.py:106-131 | when `build` exits normally every requested task has been run on every selected file it routes, into the build directory, and the schema index into "." as well |
| Cli.ScriptMain | validate.py:69-84 | the script's main block lists `assets`, maps the validator over the listing, then the asset builder over the `.ttl` files into `_build`, re-raising a worker's exception |
| Cli.ScriptPlanMeaning | validate.py:69-84 | the script works on the listing of `assets`; it ends normally exactly when no worker call failed; then every listed file was validated and exactly the `.ttl` ones were built into `_build`; a failing validation stops it before any asset is built |
| RuleLookup.SearchShape | dati_playground/validators/shacl.py:28-38 | the walk examines `fpath.parent` and then successive parents, at most MAX_DEPTH of them; it passes over only directories that neither hold `rules.shacl` nor are `basedir`; it finds a rules directory exactly when the last examined one holds `rules.shacl`, and then that one; stopping short of the budget means a hit or `basedir` |
| RuleLookup.NearestRulesWin | dati_playground/validators/shacl.py:29-35 | the nearest ancestor within MAX_DEPTH = 5 that holds `rules.shacl`, with no `basedir` before it, is the one used |
| RuleLookup.NoRulesNotFound | dati_playground/validators/shacl.py:26-38 | when none of the first five ancestors holds `rules.shacl`, no rules graph is used |
| RuleLookup.FindRules | dati_playground/validators/shacl.py:29-38 | the `for _ in range(MAX_DEPTH)` loop examines and finds exactly what the bounded search specifies |
| RuleLookup.RulesPathString | dati_playground/validators/shacl.py:32-33 | the key handed to the rules loader is `absolute().as_posix()` of the candidate, so it always starts with "/" and never takes the loader's not-absolute error |
| RuleLookup.Absolute | dati_playground/validators/shacl.py:32 | `absolute()` of any path against an absolute working directory is absolute |
| RuleLookup.GetShaclGraph | dati_playground/validators/shacl.py:14-21 | a path string not starting with "/" raises "… is not an absolute path" and caches nothing; a cached path returns the cached graph without parsing; a new one is parsed; cached entries are never changed |
| RuleLookup.ShaclReport | dati_playground/validators/shacl.py:39-55 | the file is valid exactly when pyshacl runs and reports conformance; a non-conforming report and an exception each give one message; a valid file gives none |
| RuleLookup.ValidateShacl | dati_playground/validators/shacl.py:24-55 | with no rules file pyshacl runs with no shapes graph, which is not an error by itself; with one, the memoised loader's graph is used and a loader exception propagates with nothing appended; otherwise the result is validity and exactly the report's messages are appended |
| RuleLookup.HookStringArgument | dati_playground/precommit_validators.py:27-52 | the hook, called with the string its annotation asks for, always raises (`str` has no `as_posix`); the corrected hook treats the string like the equivalent Path, and both agree on Path arguments |
| RuleLookup.HookExitMeaning | dati_playground/precommit_validators.py:42-52 | the hook exits with status 1 exactly when the rules load, the argument is a Path and pyshacl reports non-conformance; other pyshacl exceptions are re-raised |
| RuleLookup.PrecommitValidateShacl | dati_playground/precommit_validators.py:27-52 | the pre-commit hook ends as the as-written hook specifies: the same bounded nearest-rules walk, exit 1 on non-conformance, exceptions re-raised |
| Rdf.Memo.Get | dati_playground/validators/shacl.py:14-15 | a cached key returns its value unchanged; an uncached key is loaded and, when the load succeeds, cached; no other entry changes |
| Rdf.Memo.constructor | dati_playground/validators/shacl.py:14 | the cache starts empty |
| Versioned.Candidates | dati_playground/validators/versioned_directory.py:13-17 | a name is a candidate exactly when it is an entry of the grandparent that is a directory, is not `latest` and does not start with `v.` |
| Versioned.Compare2 | dati_playground/validators/versioned_directory.py:32-50 | the two files compare identical exactly when both exist, both decode as UTF-8 and their line lists after newline translation are equal |
| Versioned.VersionedReportMeaning | dati_playground/validators/versioned_directory.py:9-57 | the result is None exactly when the parent is not `latest`; True exactly when there is no candidate or the highest LooseVersion candidate holds an identical copy; one message is appended exactly when the result is False, none otherwise |
| Versioned.Validate | dati_playground/validators/versioned_directory.py:9-57 | returns the report's result and appends exactly its messages to the caller's list |
| Versioned.PassIffSameLines | dati_playground/validators/versioned_directory.py:37-50 | when the newest version can be chosen and both files read, the latest file passes exactly when its lines equal the counterpart's |
| Versioned.PrecommitDirectoryReport | dati_playground/precommit_validators.py:55-82 | outside `latest` nothing happens; with no candidate `sorted(...)[-1]` raises IndexError and nothing is appended; otherwise the highest version is compared and one "files are different" message is appended exactly when the lines differ |
| Versioned.PrecommitValidateDirectory | dati_playground/precommit_validators.py:55-82 | returns the pre-commit report's outcome and appends exactly its messages |
| LooseVersion.RunLen | dati_playground/validators/versioned_directory.py:23 | the leading run of one character class (digits, letters, other) is maximal |
| LooseVersion.CompareStrLaws | dati_playground/validators/versioned_directory.py:23 | two word components always compare, equal exactly when they are the same string, and swapping them flips the order |
| LooseVersion.CompareStrTransitive | dati_playground/validators/versioned_directory.py:23 | string ordering of word components is transitive |
| LooseVersion.CompareComponentLaws | dati_playground/validators/versioned_directory.py:23 | a component compares Same exactly with itself, and swapping the operands flips the order |
| LooseVersion.CompareComponentTransitive | dati_playground/validators/versioned_directory.py:23 | component ordering is transitive |
| LooseVersion.CompareLaws | dati_playground/validators/versioned_directory.py:23 | two versions compare Same exactly when their components are equal; swapping them flips the order, and an incomparable pair stays incomparable |
| LooseVersion.CompareTransitive | dati_playground/validators/versioned_directory.py:23 | version ordering is transitive |
| LooseVersion.AtMostTransitive | dati_playground/validators/versioned_directory.py:23 | "not above" is transitive, as the sort relies on |
| LooseVersion.Keys | dati_playground/validators/versioned_directory.py:23 | one parsed version per directory name, in order |
| LooseVersion.LastMaximumUnique | dati_playground/validators/versioned_directory.py:23 | at most one index is the element `sorted(...)[-1]` picks |
| LooseVersion.LastMaxIndex | dati_playground/validators/versioned_directory.py:23 | for orderable versions, the index picked has no version above it and every later version strictly below it, as a stable ascending sort leaves it last |
| LooseVersion.HighestVersion | dati_playground/validators/versioned_directory.py:23 | no names raise IndexError; a pair that cannot be ordered raises TypeError; otherwise the choice is the last maximum |
| LooseVersion.LeadingZerosTie | dati_playground/validators/versioned_directory.py:23 | `v01` and `v1` parse to the same version |
| LooseVersion.NumericOrder | dati_playground/validators/versioned_directory.py:23 | digit runs compare as integers: `1.9` is below `1.10` |
| LooseVersion.NumberAgainstWord | dati_playground/validators/versioned_directory.py:22-30 | `1.0` and `v1` cannot be ordered (int against str), which is what sends the validator to "Exception scanning" |
| DirectoryVersioning.DirPatternIsVersionedName | dati_playground/validators/directory_versioning_pattern.py:8-10 | `re.match(DIR_PATTERN, name)` holds exactly when the name starts with `latest`, or starts with a word character and contains a digit |
| DirectoryVersioning.WordRunEnd | dati_playground/validators/directory_versioning_pattern.py:9 | the word run that a `\b` closes ends at the first non-word character or at the end of the name |
| DirectoryVersioning.IsLeafDirectory | dati_playground/validators/directory_versioning_pattern.py:13-20 | the loop answers True exactly when no entry of the directory is itself a directory |
| DirectoryVersioning.SiblingDirectories | dati_playground/validators/directory_versioning_pattern.py:23-35 | the list is every directory entry of the parent (the directory itself included), as paths, in iterdir order |
| DirectoryVersioning.SiblingNames | dati_playground/validators/directory_versioning_pattern.py:62-68 | one name per sibling directory, in order |
| DirectoryVersioning.VersionDirs | dati_playground/validators/directory_versioning_pattern.py:65-68 | a name is kept exactly when it is a sibling other than `latest` |
| DirectoryVersioning.PatternReportMeaning | dati_playground/validators/directory_versioning_pattern.py:45-95 | a file fails exactly when its parent is an existing leaf versioned directory other than `latest` with at least two version siblings that neither all start with `v` and a digit nor all start with a digit, or that break VERSION_PATTERN; at most one message is appended |
| DirectoryVersioning.SiblingVersions | dati_playground/validators/directory_versioning_pattern.py:62-68 | the loop collects exactly the sibling names other than `latest`, in order |
| DirectoryVersioning.Validate | dati_playground/validators/directory_versioning_pattern.py:45-95 | the result is True exactly when nothing is appended, and exactly the report's messages are appended |
| DirectoryVersioning.VersionPatternAccepts | dati_playground/validators/directory_versioning_pattern.py:7 | `v1.2.3` and `latest` follow VERSION_PATTERN |
| DirectoryVersioning.VersionPatternRejectsFourParts | dati_playground/validators/directory_versioning_pattern.py:7 | four dot-separated numbers are one too many |
| DirectoryVersioning.VersionPatternRejectsWord | dati_playground/validators/directory_versioning_pattern.py:7 | a part that is not a number, as in `v1.x`, breaks the pattern |
| FilenameFormat.CheckedDirs | dati_playground/validators/filename_format.py:19-21 | the directories checked are the parent, then the first two entries of `parents`, the first of which is the parent again |
| FilenameFormat.DirMessagesMeaning | dati_playground/validators/filename_format.py:22-30 | every badly named listed directory is reported, and every message reports a badly named listed directory |
| FilenameFormat.Validate | dati_playground/validators/filename_format.py:11-44 | appends one message per badly named listed directory, in order, then one for a bad stem; the result is True for an unchecked suffix and otherwise exactly when the shared list is empty afterwards, including messages appended before the call |
| FilenameFormat.CheckDirs | dati_playground/validators/filename_format.py:22-30 | the loop appends a message for each badly named directory, in list order |
| FilenameFormat.CheckFile | dati_playground/validators/filename_format.py:33-39 | one message is appended exactly when the stem breaks the name rule |
| FilenameFormat.BadParentReportedTwice | dati_playground/validators/filename_format.py:19-30 | for a checked file whose parent is badly named, the first two messages are the same message about the parent |
| FilenameFormat.IntendedDirs | dati_playground/validators/filename_format.py:19-21 | the directories the comment promises: up to three ancestors, nearest first |
| FilenameFormat.IntendedDirsDistinct | dati_playground/validators/filename_format.py:19-21 | no intended directory appears twice |
| FilenameFormat.ValidateIntended | dati_playground/validators/filename_format.py:11-44 | the corrected validator appends one message per badly named ancestor up to three levels and one for a bad stem, and its result judges this file alone |
| FilenameFormat.IntendedReportsEachDirectoryOnce | dati_playground/validators/filename_format.py:19-30 | under the corrected check every badly named ancestor is reported and there are at most three directory messages |
| FilenameFormat.NameOkExamples | dati_playground/validators/filename_format.py:7 | upper case is outside the name rule, and a two-character lower-case name is inside it |
| FilenameMatchDirectory.LastTwoSuffixes | dati_playground/validators/filename_match_directory.py:39 | at most the last two suffixes of the name, each one of its suffixes |
| FilenameMatchDirectory.RemoveMatches | dati_playground/validators/filename_match_directory.py:41 | removing the case-insensitive matches of the extension never lengthens the name |
| FilenameMatchDirectory.NoMatchKeepsName | dati_playground/validators/filename_match_directory.py:41 | with no match anywhere the name is left as it is |
| FilenameMatchDirectory.DotIsAWildcard | dati_playground/validators/filename_match_directory.py:41 | a `.` in the extension matches any character: the pattern `.ttl` turns `axttl.ttl` into `a` |
| FilenameMatchDirectory.MatchReportMeaning | dati_playground/validators/filename_match_directory.py:33-63 | a file fails exactly when it is not a directory, is not excluded by name, by its two-suffix extension or by its last suffix, and its stripped name is not a component of its parent; at most one message is appended |
| FilenameMatchDirectory.Validate | dati_playground/validators/filename_match_directory.py:33-63 | the result is True exactly when nothing is appended, and exactly the report's message is appended |
| FilenameMatchUri.MainUriFirstAccepted | dati_playground/validators/filename_match_uri.py:30-48 | with two ancestors available the scan never raises; it finds the subject of the first triple it stops at (an ontology under an `onto` grandparent, a DCAT-AP_IT dataset typing, a SKOS concept scheme) and nothing exactly when it stops at none |
| FilenameMatchUri.OntologyNeedsOntoTree | dati_playground/validators/filename_match_uri.py:33-37 | an ontology subject outside an `onto` tree, neither a concept scheme nor a dataset typing, is passed over |
| FilenameMatchUri.ExtractMainUri | dati_playground/validators/filename_match_uri.py:10-48 | a parse failure is re-raised; otherwise the result is the scan of the parsed triples in iteration order |
| FilenameMatchUri.GraphOf | dati_playground/validators/filename_match_uri.py:21-22 | the graph holds exactly the parsed triples |
| FilenameMatchUri.LastUriPart | dati_playground/validators/filename_match_uri.py:71-74 | the part taken from the URI contains no `/` |
| FilenameMatchUri.LastUriPartOfSegment | dati_playground/validators/filename_match_uri.py:71-74 | the segment after the last `/` is taken whether or not the URI ends with `/` |
| FilenameMatchUri.UriReportMeaning | dati_playground/validators/filename_match_uri.py:90-96 | outside a `schema` tree a file with a main URI fails exactly when its stem differs from the URI's last segment |
| FilenameMatchUri.UriReportAtMostOne | dati_playground/validators/filename_match_uri.py:51-97 | at most one message is appended; a `.ttl` file that does not parse gets exactly the "not a valid Turtle file" message |
| FilenameMatchUri.Validate | dati_playground/validators/filename_match_uri.py:51-97 | non-`.ttl` files pass; the result is True exactly when the report appends nothing, and exactly its message is appended; the IndexError of `fpath.parts[1]` for a one-part path propagates with nothing appended |
| MandatoryFiles.MandatoryReportMeaning | dati_playground/validators/mandatory_files_presence.py:17-70 | a file passes exactly when its directory is not a leaf, or holds a `.ttl` file and, when `schemas` is one of its components, also a `.oas3.yaml` file and an `index.ttl`; the checks stop at the first failure, so at most one message is appended |
| MandatoryFiles.Validate | dati_playground/validators/mandatory_files_presence.py:17-70 | a directory that is missing or is not a directory raises `iterdir()`'s error with nothing appended; otherwise the result is True exactly when the report appends nothing, and exactly its message is appended |
| MandatoryFiles.IndexAloneSuffices | dati_playground/validators/mandatory_files_presence.py:29-39 | outside a `schemas` tree a leaf directory holding only `index.ttl` passes, since that is itself a `.ttl` file |
| RepoStructure.Observed | dati_playground/validators/repo_structure.py:30-34 | one `/`-joined path per directory entry of the root, in iterdir order |
| RepoStructure.StructureReportMeaning | dati_playground/validators/repo_structure.py:24-51 | when the root is a directory, the file passes exactly when every observed subdirectory is one of the three required ones (a missing required directory is not reported); at most one message is appended |
| RepoStructure.Validate | dati_playground/validators/repo_structure.py:24-51 | an empty path raises the IndexError of `fpath.parts[0]` with nothing appended; otherwise the result is True exactly when nothing is appended, and exactly the report's message is appended |
| RepoStructure.CollectSubdirs | dati_playground/validators/repo_structure.py:30-34 | the loop collects exactly the observed subdirectories, in order |
| RepoStructure.JoinedAll | dati_playground/validators/repo_structure.py:34 | one joined path per name |
| Utf8Encoding.EncodingReportMeaning | dati_playground/validators/utf8_file_encoding.py:21-28 | an existing file that is checked passes exactly when its content is the UTF-8 encoding of some sequence of scalar values (section 4 of RFC 3629) |
| Utf8Encoding.Validate | dati_playground/validators/utf8_file_encoding.py:9-28 | directories and names ending `.md` or `.png` pass unread; a missing file raises open()'s error; otherwise the result is True exactly when nothing is appended, and at most the one "not encoded in UTF-8" message is |
| Utf8Encoding.EncodingExamples | dati_playground/validators/utf8_file_encoding.py:21-28 | a lone continuation byte is rejected, and a two-byte character is accepted |
| Utf8.CharLen | dati_playground/validators/utf8_file_encoding.py:21-23 | a well-formed character at the start of the bytes is one to four bytes long (the UTF8-char rule of section 4 of RFC 3629) |
| Utf8.EncodeCharDecodes | dati_playground/validators/utf8_file_encoding.py:21-23 | the encoding of a scalar value is read back as exactly that character |
| Utf8.DecodeEncode | dati_playground/validators/utf8_file_encoding.py:21-23 | decoding an encoding gives back the code points |
| Utf8.CharIsEncoding | dati_playground/validators/utf8_file_encoding.py:21-23 | a well-formed character is the encoding of the scalar value it denotes |
| Utf8.DecodedIsEncoding | dati_playground/validators/utf8_file_encoding.py:21-23 | whatever decodes is a sequence of scalar values whose encoding is the input |
| Utf8.LineLen | dati_playground/validators/versioned_directory.py:38-39 | a line read by `readlines()` runs up to and including the first newline, or to the end |
| Utf8.FlattenLines | dati_playground/validators/versioned_directory.py:38-39 | the lines put back together are the text |
| Utf8.LinesInjective | dati_playground/validators/versioned_directory.py:37-44 | two texts have the same lines exactly when they are equal, so the diff is empty exactly when the translated texts agree |
| Utf8.ReadLines | dati_playground/validators/versioned_directory.py:33-39 | a file reads as lines exactly when it exists and is well-formed UTF-8, and the lines are its decoded text with newlines translated |
| Utf8.CarriageReturnReadsAsNewline | dati_playground/validators/versioned_directory.py:33-39 | in text mode `a\r` and `a\n` read as the same lines, so changing that one byte goes unnoticed |
| CsvCheck.FindResource | dati_playground/validators/csv.py:18-30 | a resource is found exactly when some existing candidate datapackage lists the file's name; then it is in the first such candidate, in the order json, yaml, yml |
| CsvCheck.IndexOf | dati_playground/validators/csv.py:25-28 | the first resource whose path is the name |
| CsvCheck.GetResource | dati_playground/validators/csv.py:18-30 | the nested loops return exactly the resource the search specifies, or none (the bare file) |
| CsvCheck.BadFields | dati_playground/validators/csv.py:57-64 | one entry per label at most |
| CsvCheck.CsvReportMeaning | dati_playground/validators/csv.py:39-78 | a file fails exactly when the report is invalid with error rows, or, without a datapackage, some label breaks the 2–64 `[A-Za-z0-9_]` rule; everything goes into at most one aggregated message |
| CsvCheck.BadFieldsEmpty | dati_playground/validators/csv.py:57-64 | no entry is added exactly when every label follows the field-name rule |
| CsvCheck.Validate | dati_playground/validators/csv.py:33-78 | the result is True exactly when nothing is appended, and exactly the report's one message is appended |
| CsvCheck.CollectBadFields | dati_playground/validators/csv.py:57-64 | the loop collects one entry per bad label, in order |
| CsvCheck.LastBad | dati_playground/csv.py:49-58 | the label the overwriting loop leaves is a bad one, and there is none exactly when every field name follows the rule |
| CsvCheck.IsCsvMeaning | dati_playground/csv.py:30-65 | a bad field name raises ValueError with an entry for the last bad name at the end; an invalid report with good names is listed twice before raising; the report is returned exactly when every name is good and the report is valid or has no rows |
| CsvCheck.LastBadField | dati_playground/csv.py:49-58 | the loop over the field names leaves exactly the last bad one |
| CsvCheck.IsCsv | dati_playground/csv.py:30-65 | `is_csv` on the resource `_get_resource` finds ends as the specification says |
| Build.JsonTarget | dati_playground/tools.py:73-78 | the JSON output goes into `dest / parent` of the source (an absolute source keeps its own directory) and is named from the source's name |
| Build.YamlJsonTarget | dati_playground/tools.py:68-78 | raises ValueError exactly when the last suffix is not `.yaml` |
| Build.YamlCopyTarget | dati_playground/tools.py:83 | the copy keeps the source's name, under `buildpath / parent` |
| Build.LdYamlBecomesJsonLd | dati_playground/tools.py:75-78 | `x.ld.yaml` is written as `x.jsonld` |
| Build.DotsAt | dati_playground/tools.py:69 | a name ending in a dot-led, dot-free tail after something has that tail as its suffix and everything before as its stem |
| Build.YamlBecomesJson | validate.py:47-53 | any other `.yaml` name has its last suffix replaced by `.json` |
| Build.YmlRefused | validate.py:44-45 | a `.yml` file is refused with ValueError |
| Build.SemanticTargets | dati_playground/tools.py:53-54 | three targets, `(dest / asset)` with `.rdf`, `.jsonld` and `.nt` in that order |
| Build.StaleTargets | dati_playground/tools.py:56-57 | a target is written exactly when it is missing or not newer than the source |
| Build.BuildSemanticAsset | dati_playground/tools.py:45-58 | the `out` guard returns early; otherwise a parse error propagates, and on success exactly the stale targets are serialised, in order |
| Build.WriteStale | dati_playground/tools.py:53-58 | the serialisation loop writes exactly the targets the source is not older than, in target order |
| Build.OutGuardNeverFires | dati_playground/tools.py:48 | `"out"` is never one of the suffixes, which carry their dot, so the guard never fires |
| Build.FreshnessRule | dati_playground/utils.py:15-19 | a missing target is always stale; an existing one is stale exactly when its modification time is not later than the source's, so equal times rewrite |
| Build.FrameContexts | dati_playground/tools.py:64 | the framing contexts are exactly the entries of the asset's directory named `context-*.ld.yaml`, as paths in that directory |
| Build.ContextsAmong | dati_playground/tools.py:64 | the matching names among a list of entries, as paths |
| Build.FrameContextNames | dati_playground/tools.py:64 | a name matches `context-*.ld.yaml` exactly when it starts with `context-`, ends with `.ld.yaml` and is at least sixteen characters long |
| Build.FramingCalls | dati_playground/tools.py:61-65 | `build_vocabularies` frames the asset once per framing context beside it, in directory order |
| Build.BuildAsset | playground/tools.py:50-65 | the older builder serialises all three targets with no freshness test, then frames every context beside the asset; a parse error propagates before anything is written |
| Build.WriteAll | playground/tools.py:58-62 | the older serialisation loop writes every target, in order |
| Build.TurtlesIn | playground/tools.py:46 | every path found in a directory is a `.ttl` name in it |
| Build.TurtleTwoDownShape | playground/tools.py:44-47 | every asset `generate_asset` builds is a `.ttl` file exactly two directory levels below the root |
| Build.Level2Shape | playground/tools.py:46 | every path found one level down is a `.ttl` name in a subdirectory |
| Build.JsonSchemaToRdfGuard | dati_playground/tools.py:21-28 | the conversion goes ahead exactly when the schema passes the Draft 7 check and has no `@context`; a valid schema with `@context` raises "Multiple contexts are not supported" |
| Build.MergedGraphsUnion | dati_playground/utils.py:22-34 | when loading succeeds, every file whose name does not contain `aligns` parsed, and the merged graph is exactly the union of their graphs |
| Build.MergeStep | dati_playground/utils.py:30-33 | one step of the loop: a skipped file changes nothing, a failing parse raises, a parsed graph is merged |
| Build.LoadAllAssets | dati_playground/utils.py:22-34 | the loop merges exactly what the specification says, or raises the first parse error |
| AssetModel.ClassifyMeaning | dati_playground/asset.py:19-57 | an explicit type is refused unless it is jsonschema, graph, oas3 or csv, and then wins; without one, `.yaml`/`.yml`/`.json` names are schema, then `.ttl`/`.jsonld` names graph, then `.csv` names csv, and any other name raises "Unsupported file suffix" |
| AssetModel.ParseRetypes | dati_playground/asset.py:62-75 | parsing changes the type only from schema to oas3, exactly when `"openapi" in` the loaded document holds (a key of a mapping, an element of a list, a substring of a string); an explicit jsonschema or oas3 asset cannot be parsed and keeps its payload |
| AssetModel.ParseFailureStores | dati_playground/asset.py:63-67 | a failed parse leaves the payload as it was, except that a loaded document which is not a container is stored before the membership test raises; an empty file stores None and raises "argument of type 'NoneType' is not iterable" |
| AssetModel.ValidatorFor | dati_playground/asset.py:101-110 | a validator exists exactly for schema, oas3, graph and csv; any other type raises "Unsupported file suffix" |
| AssetModel.ShaclOutcome | dati_playground/asset.py:92-99 | the graph passes exactly when pyshacl runs and reports conformance; non-conformance raises ValueError with the report text, and pyshacl's own exception propagates |
| AssetModel.ShaclSearchStopsAtDot | dati_playground/asset.py:81-91 | for a relative asset path the walk stops after the directory with an empty name, so a file two directories deep examines at most its directory, the one above and "." |
| AssetModel.Asset.constructor | dati_playground/asset.py:19-57 | a new asset has the given path and type and no parsed payload yet |
| AssetModel.Asset.Parse | dati_playground/asset.py:62-75 | the new type and payload are those the parse step specifies (the loaded document stored before the `openapi` test, which may raise); the path is unchanged |
| AssetModel.Asset.ValidateShaclRules | dati_playground/asset.py:77-99 | the nearest `rules.shacl` within MAX_DEPTH directories, loaded through the memoised loader whose error propagates, then the pyshacl outcome |
| AssetModel.Asset.Validate | dati_playground/asset.py:101-112 | an unknown type raises; otherwise exactly the type's validator runs on the payload: the Draft 7 schema check, the OpenAPI check, the SHACL validation or the CSV check |
| AssetModel.Asset.BuildGraph | dati_playground/asset.py:114-137 | the paths written are exactly the stale ones among the `.rdf` and `.jsonld` targets, in that order |
| AssetModel.Asset.SchemaTarget | dati_playground/asset.py:139-148 | the JSON output goes into `dest / parent` and is named as the build tool names it, without its suffix check |
| AssetModel.GraphTargets | dati_playground/asset.py:119-130 | two targets named stem + `.rdf` and stem + `.jsonld`, under `dest / path` when the tree is preserved and directly in `dest` otherwise |
| AssetModel.NewAsset | dati_playground/asset.py:19-57 | construction raises exactly the classification's error; otherwise a fresh unparsed asset of the chosen type |
| AssetModel.CsvSerializeRaisesAttributeError | dati_playground/asset.py:150-162 | as written, a CSV asset fails to serialize with AttributeError (`self.self`) rather than the intended error |
| AssetModel.SerializeIntendedMeaning | dati_playground/asset.py:150-162 | the corrected serialize raises exactly for combinations other than a graph, or a schema or oas3 asset in json or yaml, naming the asset; it agrees with the original on every supported combination |
| Publication.Format | dati_playground/asset.py:174-181 | the formatted URL starts with the template's text before the placeholder, ends with the text after it, and is as long as both plus the branch |
| Publication.RelativeTo | dati_playground/asset.py:166-172 | `relative_to` succeeds exactly when the base is a prefix of the path with the same anchor, and gives the relative rest |
| Publication.UriMeaning | dati_playground/asset.py:164-172 | a path below `assets/schemas` is published under the NDC URI without that prefix; any other relative path keeps its whole text |
| Publication.UrlsMeaning | dati_playground/asset.py:174-190 | the download URL starts with the raw-content base and the `master` branch and ends with the file's path; the access URL is the browsing base followed by the file's directory, the same for every file of a directory (playground/schema.py:65-81 is identical) |
| Framing.NamespacesOf | dati_playground/framing.py:54-59 | a context member is a namespace exactly when its value is a string ending in `#` or `/` |
| Framing.FieldsOf | dati_playground/framing.py:54-59 | a context member is a field exactly when it is not a namespace |
| Framing.PartitionMeaning | dati_playground/framing.py:54-59 | every context member lands in exactly one of namespaces and fields, and the two together are as many as the context |
| Framing.ComponentsMeaning | dati_playground/framing.py:45-67 | a successful split gives the context's namespaces and fields; an index, when chosen, is the string `_meta.index` and names a field; an empty string value makes `v[-1]` raise IndexError |
| Framing.IndexExamples | dati_playground/framing.py:60-66 | without `_meta` the KeyError is swallowed and there is no index; with `_meta.index` naming a field that field is the index |
| Framing.FrameComponents | dati_playground/framing.py:45-67 | the method splitting the context and choosing the index returns exactly the specified components or error |
| Framing.SplitContext | dati_playground/framing.py:54-59 | the loop fails exactly when some value is the empty string; otherwise it fills namespaces and fields in context order |
| Framing.StripEntry | dati_playground/framing.py:38 | a stripped entry keeps exactly the members whose key is `in` the context value; a non-empty entry raises "argument of type ... is not iterable" exactly when that value is not a string, list or mapping |
| Framing.Strip | dati_playground/framing.py:38 | every framed entry is stripped and none is dropped; the comprehension raises exactly when the context value is not a container and some entry has a member |
| Framing.FrameVocabularyMeaning | dati_playground/framing.py:16-42 | framing succeeds exactly when the projection does, `context["@context"]` can be read, and it is a container or no entry has a member to test; it then keeps one entry per `@graph` element (a single entry when the projection has no `@graph`), each holding exactly its members whose key is `in` `@context` (a key of a mapping, an element of a list, a substring of a string), and returns `@context` unchanged; the older playground/framing.py:13-30 version agrees with `@graph` and raises KeyError without it |
| JsonValues.Includes | dati_playground/framing.py:38 | `key in value` can be evaluated exactly on a string, a list or a mapping |
| Framing.ContextPrefix | dati_playground/framing.py:79 | the prefix starts with a dot and contains no slash when the context's name has none |
| Framing.FramedYamlTarget | dati_playground/framing.py:110 | the framed YAML sits beside `dest / vpath` and is named its stem followed by the context prefix and `.yaml` |
| Framing.ContextPrefixOf | dati_playground/framing.py:79 | `stem[8:]` of `context-w.yaml` gives the prefix `.w` |
| Framing.FramedNames | dati_playground/framing.py:110-119 | a vocabulary `x.ttl` framed with `context-w.yaml` writes `x.w.yaml` and `x.w.csv` in the same directory |
| Framing.FramedYamlName | dati_playground/framing.py:110 | a vocabulary `x.ttl` framed with `context-w.yaml` gives the YAML `x.w.yaml` |
| Framing.UnwrapVersion | dati_playground/framing.py:93-94 | a mapping version without `@value` is kept, and one with `@value` is replaced by that value |
| Framing.CsvMetadataVersion | dati_playground/framing.py:90-97 | a version given as `{"@value": t}` is accepted as `t` and written back into the metadata entry |
| Framing.PreambleLines | dati_playground/framing.py:123-126 | at most one comment line per metadata member |
| Framing.Header | dati_playground/framing.py:121-122 | the CSV opens with exactly two comment lines |
| Framing.Tables | dati_playground/framing.py:130-140 | when the sqlite dump succeeds it writes two tables, the second named as the first plus `#meta` |
| Framing.ExportMeaning | dati_playground/framing.py:107-145 | the outputs in order are the YAML when stale, the CSV, the datastore when asked for and the `.oas3.yaml` schema; a missing or empty index raises "Missing index." after the YAML only; no table is written when the export fails or the dump is off |
| Framing.FrameVocabularyToCsv | dati_playground/framing.py:70-145 | the method computing the export returns exactly the specified export |
| Framing.WriteOutputs | dati_playground/framing.py:107-145 | the writes after the metadata step are exactly the specified ones |
| Framing.WritePreamble | dati_playground/framing.py:123-126 | the loop writes `# k: v` for url, title, version and description, in the entry's order, and nothing else |
| Framing.FramesStop | playground/framing.py:64-82 | once one framing context fails, no later context is handled |
| Framing.FramesComplete | playground/framing.py:64-82 | a run that completes writes, for the k-th context, the framed YAML and then its CSV |
| Framing.StepComplete | playground/framing.py:65-82 | one successful context writes exactly its YAML and its CSV |
| Framing.GenerateFrame | playground/framing.py:56-82 | the loop over `context-*.ld.yaml` beside the vocabulary, in glob order, returns exactly the specified run |
| Semantic.About | dati_playground/schema.py:97-99 | the local definitions of an IRI are exactly the merged store's triples with that subject |
| Semantic.GetAssetMeaning | dati_playground/schema.py:92-110 | a term defined locally is never fetched; otherwise the IRI with `https://w3id.org/italia/` replaced by the ontopia host is requested and the body parsed as Turtle, a failed request or an unparsable body raising out of get_asset |
| Semantic.Expected | dati_playground/schema.py:195-196 | the expected terms are exactly the predicates of the normalised context that start with the allowed namespace |
| Semantic.FailedLookups | dati_playground/schema.py:199-202 | the failed lookups are exactly the expected terms whose get_asset raises |
| Semantic.Dependencies | dati_playground/schema.py:199-202 | the dependencies hold a triple exactly when some expected term's fetched definition holds it |
| Semantic.SchemaAssetsMeaning | dati_playground/schema.py:183-220 | the closure succeeds exactly when every lookup succeeds and every expected term is a fetched subject or occurs inside one; it then returns every fetched definition and nothing else; it raises a failing lookup's error when there is one, and otherwise "Missing dependencies for {missing} in {namespaces}" |
| Semantic.GetSchemaAssets | dati_playground/schema.py:183-220 | the loops fetching each expected term and looking for an unforgiven missing term end as the closure is specified, the normalisation and lookup errors included |
| Semantic.FetchAll | dati_playground/schema.py:199-202 | the fetch loop succeeds exactly when no lookup raises, then holding exactly the union of the definitions of the expected terms, and otherwise raises some failing lookup's error |
| Semantic.SummaryOf | dati_playground/schema.py:155-165 | the domains are exactly the objects of `rdfs:domain` triples and the ontologies exactly the objects of `rdfs:isDefinedBy` triples of the closure |
| Semantic.FoundAreEntries | dati_playground/schema.py:170-173 | every match of `$..key` is the value of entry `key` of the mapping it reports |
| Semantic.FoundInMembersAreEntries | dati_playground/schema.py:170-173 | the same for the matches below the members of a mapping |
| Semantic.FoundInItemsAreEntries | dati_playground/schema.py:170-173 | the same for the matches below the items of a list |
| Semantic.Values | dati_playground/schema.py:173-175 | the contexts are the matches' values, one per match, in order |
| Semantic.ContextReferencesMeaning | dati_playground/schema.py:168-180 | when no context fails, the domains and ontologies are exactly those found in some context's summary |
| Semantic.GetContextReferences | dati_playground/schema.py:168-180 | the loop uniting the summaries one context at a time returns exactly the specified references |
| Semantic.ReferencesStop | dati_playground/schema.py:173-178 | once a context's closure raises, later contexts do not change the outcome |
| Semantic.Names | dati_playground/schema.py:336-346 | the names of a path made of keys are its step names, in order |
| Semantic.DumpFullPath | dati_playground/schema.py:340-346 | `_dump` of a full path yields its field names left to right, and raises AttributeError as soon as one step is a list index |
| Semantic.JsonPointerMeaning | dati_playground/schema.py:336-337 | a context at the top of the document has no `left` and raises; one inside a list raises; otherwise the JSON pointer is `#/` followed by the keys leading to its mapping joined by `/`, and splitting it gives those keys back when none contains `/` |
| DatasetRecord.Lookup | dati_playground/schema.py:129-133 | the empty chain of keys finds the document itself |
| DatasetRecord.FoundFields | dati_playground/schema.py:129-134 | at most one entry per info field, each a literal under one of the fields' properties |
| DatasetRecord.FoundFieldsMeaning | dati_playground/schema.py:129-134 | an entry is recorded exactly when its field's path `$.info...` is present, holding that value as a literal |
| DatasetRecord.ReferencesOf | dati_playground/schema.py:113-152 | the references fail exactly when the context references fail, carry their domains and ontologies, and always end with the IRREG accrual periodicity and the TECHNOLOGY theme |
| DatasetRecord.ReferencesEntries | dati_playground/schema.py:136-145 | the contact URL and name are popped into the rights holder, so only title, description, version, accrual periodicity and theme stay as entries |
| DatasetRecord.DatasetGraphMeaning | dati_playground/schema.py:223-293 | the dataset conforms to exactly the referenced ontologies and has exactly the referenced domains as key classes; its distribution is licensed CC-BY 4.0 and has the access URL; the rights holder is linked from the dataset |
| DatasetRecord.Describe | dati_playground/schema.py:250-255 | the loops over entries, ontologies and domains add exactly the specified dataset triples |
| DatasetRecord.Oas3ToTurtle | dati_playground/schema.py:223-293 | the method building the dataset graph returns exactly the specified graph |
| DatasetRecord.BuildSchema | dati_playground/schema.py:296-316 | a name not ending in `.yaml` raises "Not a yaml file"; a written record is `index.ttl` in the build copy of the schema's directory and is written only when stale |
| DatasetRecord.BuildSchemaMeaning | dati_playground/schema.py:304-316 | a fresh record is left alone; a stale one, when the context references resolve, describes the schema at its published URI with its download URL as distribution |
| DatasetRecord.SharedMeaning | playground/schema.py:119-144 | when every source parses, the shared graph holds exactly the triples some source parses to |
| DatasetRecord.RefersToSources | playground/schema.py:122-123 | one `x-refersTo` source per match, in order |
| DatasetRecord.ContextSources | playground/schema.py:132-138 | one context source per `x-jsonld-context` match, in order |
| DatasetRecord.PlaygroundSemanticReferences | playground/schema.py:91-146 | the method collecting the playground references returns exactly the specified summary and entries |
| DatasetRecord.ParseSources | playground/schema.py:119-144 | the parsing loops raise the first source's error, or return the shared graph with the domains and ontologies read from the whole of it |
| DatasetRecord.ObjectsGrow | playground/schema.py:125-130 | parsing more into the shared graph never loses a domain or an ontology |
| DatasetRecord.SharedStop | playground/schema.py:122-138 | once a source fails, later sources do not change the outcome |
| DatasetRecord.PlaygroundGraphMeaning | playground/schema.py:149-208 | with a rights holder argument the dataset links to it exactly when it is non-empty; without one no rights-holder IRI is linked |
| DatasetRecord.PlaygroundOas3ToTurtle | playground/schema.py:149-208 | the method building the playground dataset graph returns exactly the specified graph |
| SemanticBundle.Len | dati_playground/schema.py:377 | the length of a mapping is its number of members |
| SemanticBundle.Score | dati_playground/schema.py:389-396 | a property score never counts more annotated properties than there are properties, and the total is the number of properties |
| SemanticBundle.ScoreMeaning | dati_playground/schema.py:389-405 | the score is full exactly when the context gives every property a truthy value, and zero exactly when it gives none |
| SemanticBundle.ScoreProperties | dati_playground/schema.py:390-396 | the properties loop returns exactly the specified score or error |
| SemanticBundle.ScoreStop | dati_playground/schema.py:390-396 | once a property fails, later properties do not change the outcome |
| SemanticBundle.Repeat | dati_playground/schema.py:415 | n copies of the schema fragment |
| SemanticBundle.AddReferrersMeaning | dati_playground/schema.py:411-415 | a term has a referrer list afterwards exactly when it had one or was validated; untouched lists stay as they were; a validated term's list gains the schema fragment once per time it was reported |
| SemanticBundle.RepeatCons | dati_playground/schema.py:415 | one more referrer puts one more copy of the schema fragment in front |
| SemanticBundle.AddReferrerLoop | dati_playground/schema.py:411-415 | the referrer loop returns exactly the specified referrer lists |
| SemanticBundle.StepsMeaning | dati_playground/schema.py:374-417 | a completed bundle covers one schema per yielded context, keeps its title and schema total, records the score of a covered schema only under the JSON pointer of some context, and that score has no more annotated properties than properties |
| SemanticBundle.NdcSemanticBundle | dati_playground/schema.py:374-417 | the method returns exactly the specified bundle or error |
| SemanticBundle.BundleLoop | dati_playground/schema.py:381-415 | the loop over the yielded contexts returns exactly the specified bundle or the first error |
| SemanticBundle.AnnotatedSchema | dati_playground/schema.py:323-333 | one loop body: JSON pointer, Draft 7 check, the object-type requirement, the score, the summary and the referrers, exactly as specified |
| SemanticBundle.BundleStop | dati_playground/schema.py:381-415 | once a context fails, later contexts do not change the outcome |
| Vocabularies.SplitOnce | scripts/download_eu_vocabularies.py:48 | splitting at the first separator gives a head without it, and head, separator and tail rebuild the text; with no separator the text is all head |
| Vocabularies.Query | scripts/download_eu_vocabularies.py:48 | the query of a URL never contains the fragment's `#` |
| Vocabularies.FirstValue | scripts/download_eu_vocabularies.py:50 | parse_qs drops blank values, so a found file name is never empty |
| Vocabularies.ParseComponent | scripts/download_eu_vocabularies.py:51 | a file name without `/` is a one-component relative path |
| Vocabularies.TargetOfComponent | scripts/download_eu_vocabularies.py:52-54 | a single-component file `f` lands as `assets/vocabularies/<stem>/latest/f`, and with suffix `.ttl` as `<stem>.ttl` there |
| Vocabularies.DestinationOfComponent | scripts/download_eu_vocabularies.py:50-54 | once "-skos" is dropped from the file name, the destination is `assets/vocabularies/<stem>/latest/<stem>.ttl` |
| Vocabularies.ExtendPrinted | scripts/download_eu_vocabularies.py:47-57 | one more URL only adds to the reported URLs, and adds itself when it has no file name |
| Vocabularies.ExtendPairs | scripts/download_eu_vocabularies.py:47-57 | one more URL only adds to the yielded pairs, and what it adds is itself with the destination of its file name |
| Vocabularies.ExtendCounts | scripts/download_eu_vocabularies.py:47-57 | one more URL that does not end the generator is either yielded or reported, exactly once |
| Vocabularies.ListingCounts | scripts/download_eu_vocabularies.py:45-57 | when the generator completes, every URL of the bindings is yielded or reported |
| Vocabularies.ListingPairs | scripts/download_eu_vocabularies.py:45-57 | every yielded pair is a URL of the bindings that has a file name, paired with that name's destination |
| Vocabularies.PairEarlier | scripts/download_eu_vocabularies.py:47-55 | a pair already yielded keeps its position when more URLs follow |
| Vocabularies.PairLast | scripts/download_eu_vocabularies.py:47-55 | a pair yielded by the last URL is that URL with the destination of its file name |
| Vocabularies.ListingPrinted | scripts/download_eu_vocabularies.py:56-57 | every URL without a file name is reported "Cannot parse", unless the generator ended before it |
| Vocabularies.OkBefore | scripts/download_eu_vocabularies.py:47-57 | a generator that completes had not ended one URL earlier |
| Vocabularies.PrintedEarlier | scripts/download_eu_vocabularies.py:56-57 | a URL already reported stays reported when more URLs follow |
| Vocabularies.PrintedLast | scripts/download_eu_vocabularies.py:56-57 | the last URL is reported when it has no file name and the generator completes |
| Vocabularies.GetVocabularies | scripts/download_eu_vocabularies.py:45-57 | the generator loop yields exactly the specified pairs and reports, and stops at the first destination pathlib refuses |
| Vocabularies.ListingStop | scripts/download_eu_vocabularies.py:47-55 | once a destination is refused, later URLs do not change the listing |
| Vocabularies.Selected | scripts/download_eu_vocabularies.py:79-83 | the pairs handed to the workers are exactly those whose URL contains the needle |
| Vocabularies.EmptyNeedleSelectsAll | scripts/download_eu_vocabularies.py:79 | without an argument every pair is downloaded, in order |
| Vocabularies.DownloadFile | scripts/download_eu_vocabularies.py:60-72 | a status other than 200 writes nothing and returns; otherwise the raw bytes go beside the destination with suffix `.rdf`, which raises FileNotFoundError with nothing written when the destination's directory does not exist yet, and the Turtle is written only when the RDF/XML parses |
| Vocabularies.DownloadFileIntended | scripts/download_eu_vocabularies.py:60-72 | with the directory created before the raw write, the outcome is the as-written one for an existing directory, whether or not it existed |
| Vocabularies.NewVocabularyNotStored | scripts/download_eu_vocabularies.py:68-71 | a vocabulary whose directory is not in the tree yet is not stored as written, and both files are stored in the intended order |
| Vocabularies.DownloadBeside | scripts/download_eu_vocabularies.py:68-72 | the raw copy shares the destination's directory and stem, with suffix `.rdf` |
| Glob.LiteralMatches | dati_playground/validators/__init__.py:91-92 | a pattern without `*` matches exactly the name it spells |
| Glob.StarSuffixMatches | dati_playground/validators/__init__.py:63-68 | `*x` matches exactly the names ending in `x`, as `*.ttl` and `*.ld.yaml` are used |
| Glob.PrefixStarSuffixMatches | dati_playground/validators/__init__.py:69 | `a*b` matches exactly the names starting with `a`, ending with `b` and long enough for both, as `context-*.ld.yaml` is used |
| JsonValues.Keys | dati_playground/framing.py:38 | the keys of a mapping, one per member, in order |
| JsonValues.Get | dati_playground/schema.py:384-395 | `get` finds nothing exactly when the key is absent, and otherwise a value the mapping holds under that key |
| JsonValues.Set | dati_playground/framing.py:94 | assigning an existing key keeps the number of members |
| JsonValues.SetMeaning | dati_playground/framing.py:94 | assigning an existing key keeps every key in place and makes the key read back the new value |
| JsonValues.Subscript | dati_playground/framing.py:50 | `value[key]` succeeds exactly on a mapping holding the key, giving its value |
| JsonValues.GetOr | dati_playground/schema.py:377 | `value.get(key, default)` succeeds exactly on a mapping, and gives the default when the key is absent |
| ErrorLog.Errors.constructor | dati_playground/validators/filename_format.py:28 | a new error list is empty |
| ErrorLog.Errors.Append | dati_playground/validators/filename_format.py:28 | appending adds the one message at the end and leaves the earlier ones |
| ErrorLog.Errors.Extend | dati_playground/__main__.py:141-142 | a validator's messages are added at the end, in order, after the earlier ones |

## Left out

- Library validators and parsers are parameters: rdflib parsing and serialisation, pyld framing and URDNA2015 normalisation, pyshacl, openapi-spec-validator, jsonschema's `check_schema` and frictionless. The model states what the tools do with their outcome, not how they reach it.
- The network is a parameter: the remote lookup of `get_asset`, `requests_cache`, the SPARQL query of the download script and the HTTP `head`/`get` calls of playground/schema.py.
- File contents, writes and `mkdir` are not modelled as effects. The builders return the list of paths they write, in order; the bytes written (YAML, JSON, Turtle, CSV bodies) are not modelled.
- Modification times are integers rather than floats.
- `date.today()` is a parameter of the dataset record.
- `git.Repo` path relativisation in `Asset.__init__` is not modelled: asset paths are given relative to the repository root.
- pandas and sqlalchemy are not modelled: DataFrame construction, `to_csv`, `to_sql` and `df_to_schema`. Only the names of the sqlite tables are (`Framing.Tables`).
- `validate_context` of dati_playground/schema.py depends on the iteration order of RDF triples and on remote fetches. The bundle takes the terms it reports as a parameter, and the per-term details it records (last modified date, version info) are not modelled.
- `multiprocessing.Pool` is modelled as the calls it makes: the batch cut into chunks of `ceil(n / 16)` calls for 4 workers, each chunk run up to its first failure. The calls are recorded in list order, although the workers run the chunks concurrently. When several calls fail, the model raises the first failure in list order, whereas the pool re-raises the failure of whichever chunk reports first.
- Cli.ReportLines: the deduplicated messages are printed in the iteration order of a Python `set`, which is not modelled; the contract states which lines are printed, not their order.
- The eviction of `functools.lru_cache` (maxsize 100 and 128) is not modelled: a memo remembers every successful load, which is what a cache of unbounded size does.
- Click argument parsing is not modelled: the commands take their options already parsed.
- `exit()` is an outcome value, not a process effect.
- Logging and the "Validating ..." prints are not modelled.
- Python's regular expressions are modelled on ASCII names without newlines: `\w` and `\d` are their ASCII classes.
- FilenameMatchDirectory.RemoveMatches: regex metacharacters of the extension other than `.` (and the `re.error` an exotic suffix raises) are taken literally.
- LooseVersion.HighestVersion: TimSort compares only some pairs of keys. The model raises exactly when some pair of candidate keys cannot be compared, which over-approximates the pairs the sort actually compares.
- Build.BuildSemanticAsset requires the asset to exist in the file system, as every caller passes a listed file.
- Vocabularies.FirstValue: percent-decoding of the query string is not modelled; `+` is read as a space.
- The import defects of asset.py (`MAX_DEPTH`, `get_shacl_graph` and `is_csv` imported from modules that do not define them) are not modelled: validation dispatch is over abstract validators.
- Dispatch.ValidateFile: the checker is abstract and called as intended; the one-argument call of validators/__init__.py is modelled separately (`Dispatch.PackageAsWritten`, see Findings).
- Versioned.DecodeErrorText: a UnicodeDecodeError is shown by its fixed prefix; the byte, position and reason Python appends are not modelled.
- Strings.Quote: names are quoted as Python's repr quotes a string holding neither `'` nor `\` nor a non-printable character; the switch to double quotes and the escapes repr uses otherwise are not modelled, so messages about such names differ.
- YAML and JSON numbers are integers: floats (a `version: 1.0`, say) are not modelled, nor how they print and compare.
- `df_to_schema` compares `valid_until` with NaN, which is always false. It is left out with the rest of pandas.
- The web service in openapi/api.py and openapi/ndc.py and setup.py are not part of this model.

## Findings

| source | as written | input that shows it | evidently intended | confidence | as-written member | corrected member |
|---|---|---|---|---|---|---|
| dati_playground/validators/filename_format.py:19-21 | the checked directories are the parent followed by `parents[:2]`, whose first element is the parent again | a file `assets/Bad/x.ttl`: the directory `Bad` is reported twice | parent, grandparent and great-grandparent, each checked once | not executed | FilenameFormat.BadParentReportedTwice | FilenameFormat.IntendedReportsEachDirectoryOnce |
| dati_playground/asset.py:162 | the unsupported-format error is built from `self.self.path.name` | serializing a `csv` asset, or a schema asset in a format other than json or yaml, raises AttributeError instead of NotImplementedError | the message names `self.path.name` | not executed | AssetModel.CsvSerializeRaisesAttributeError | AssetModel.SerializeIntendedMeaning |
| dati_playground/validators/__init__.py:64-68, :94 | `validate_file` calls every checker with the file's text only, but the turtle, openapi and json_schema `validate` functions bound for `*.ttl`, `*.shacl`, `*.oas3.yaml` and `*.schema.yaml` take `(fpath, errors)` | any `.ttl` file under the size ceiling raises TypeError "validate() missing 1 required positional argument: 'errors'", so `build --validate` fails on every tree holding one | each checker called with the arguments it declares, its verdict deciding | not executed | Dispatch.TurtleFilesRaiseAsWritten | Dispatch.ValidateFile |
| scripts/download_eu_vocabularies.py:68-71 | the raw `.rdf` bytes are written into the destination's directory before `mkdir` creates it | a vocabulary whose `assets/vocabularies/<stem>/latest/` is not in the tree yet: FileNotFoundError and nothing written | `mkdir` first, so a new vocabulary is stored | not executed | Vocabularies.NewVocabularyNotStored | Vocabularies.DownloadFileIntended |
| dati_playground/precommit_validators.py:45 | the hook calls `file.as_posix()` on its argument, annotated as `str` | any string argument raises AttributeError once the rules are loaded, so pyshacl never runs | `Path(file).as_posix()` | not executed | RuleLookup.HookStringArgument | RuleLookup.HookIntended |
